/**
 * The season loop for one team: from the starting race on, in ascending race
 * order, re-select the team with the strategy (except at the starting race), score
 * it, and record one result row per race; a race after one that used fewer than
 * two moves allows three moves instead of two.
 */
module RunSingleTeam {
  import opened Wrappers
  import opened Text
  import opened Assets
  import opened Seasons
  import opened Teams
  import opened Lp
  import opened StrategyBase
  import opened StrategyZeroStop
  import opened StrategyFactory

  datatype RunError =
    | MissingRace(race: int)
    | FactoryFailed(factoryError: FactoryError)
    | ConfigFailed(configError: ConfigError)
    | TeamFailed(teamError: TeamError)

  /** The class name each strategy reports. */
  function KindName(kind: StrategyKind): string {
    match kind
    case MaxBudget => "StrategyMaxBudget"
    case ZeroStop => "StrategyZeroStop"
    case MaxP2PM => "StrategyMaxP2PM"
  }

  // ---------------------------------------------------------------------------
  // The races of a run

  /** A non-empty set has an element. */
  lemma Element<T>(s: set<T>) returns (x: T)
    requires s != {}
    ensures x in s
  {
    x :| x in s;
  }

  /** A non-empty set of race numbers has a least element. */
  lemma {:induction false} MinExists(s: set<int>)
    requires s != {}
    ensures exists m :: m in s && forall k :: k in s ==> m <= k
    decreases s
  {
    var x := Element(s);
    var rest := s - {x};
    if rest == {} {
      forall k | k in s ensures x <= k {
        assert k == x || k in rest;
      }
      assert x in s;
    } else {
      MinExists(rest);
      var m :| m in rest && forall k :: k in rest ==> m <= k;
      if x < m {
        forall k | k in s ensures x <= k {
          if k != x { assert k in rest; }
        }
        assert x in s;
      } else {
        forall k | k in s ensures m <= k {
          if k != x { assert k in rest; }
        }
        assert m in s;
      }
    }
  }

  /** The least element of a non-empty set of race numbers. */
  function MinOf(s: set<int>): (m: int)
    requires s != {}
    ensures m in s && forall k :: k in s ==> m <= k
  {
    MinExists(s);
    var m :| m in s && forall k :: k in s ==> m <= k;
    m
  }

  /** `sorted`: the numbers of a set in strictly ascending order. */
  function SortedInts(s: set<int>): (r: seq<int>)
    ensures forall k :: k in r <==> k in s
    ensures forall i, j :: 0 <= i < j < |r| ==> r[i] < r[j]
    decreases s
  {
    if s == {} then []
    else
      var m := MinOf(s);
      var rest := SortedInts(s - {m});
      assert forall i :: 0 <= i < |rest| ==> rest[i] in rest;
      [m] + rest
  }

  /** The season's race numbers from `start` on, ascending. */
  function RacesFrom(season: Season, start: int): (races: seq<int>)
    ensures forall k :: k in races <==> k in season.races && k >= start
    ensures forall i, j :: 0 <= i < j < |races| ==> races[i] < races[j]
    ensures start in season.races ==> |races| > 0 && races[0] == start
  {
    var races := SortedInts(set k | k in season.races && k >= start);
    if start in season.races then
      assert start in races;
      assert races[0] in races;
      assert races[0] == start by {
        forall i | 0 <= i < |races| ensures races[0] <= races[i] {
          if 0 < i { assert races[0] < races[i]; }
        }
        var i :| 0 <= i < |races| && races[i] == start;
        assert races[0] <= races[i];
      }
      races
    else races
  }

  /** The previous race, for prices of drivers who have left: race 1 is its own previous race. */
  function PreviousRace(raceNum: int): (prev: int)
    ensures raceNum >= 1 ==> 1 <= prev <= raceNum
    ensures prev == raceNum <==> raceNum == 1
  {
    if raceNum == 1 then 1 else raceNum - 1
  }

  // ---------------------------------------------------------------------------
  // Re-selection

  /** The names of a variable list whose variable is 1, in list order. */
  function Chosen(list: seq<string>, chosen: set<string>): (r: seq<string>)
    ensures forall x :: x in r <==> x in list && x in chosen
    ensures |r| == Picked(list, chosen)
    ensures Distinct(list) ==> Distinct(r)
  {
    if list == [] then []
    else
      var p := list[..|list| - 1];
      var x := list[|list| - 1];
      assert list == p + [x];
      assert Distinct(list) ==> Distinct(p) && x !in p;
      Chosen(p, chosen) + if x in chosen then [x] else []
  }

  /**
   * A selection meeting the scaffold's constraints rebuilds rosters of the team's
   * sizes, without repeats: re-selection keeps the roster sizes.
   */
  lemma FeasibleSelectionKeepsRosterSizes(sc: Scaffold, sel: Selection)
    requires sc.WellFormed() && Feasible(sc, ScaffoldConstraints(sc), sel)
    ensures |Chosen(sc.driverList, sel.drivers)| == |sc.teamDrivers|
    ensures |Chosen(sc.constructorList, sel.constructors)| == |sc.teamConstructors|
    ensures Distinct(Chosen(sc.driverList, sel.drivers)) && Distinct(Chosen(sc.constructorList, sel.constructors))
  {
    assert DriverCount(|sc.teamDrivers|) in ScaffoldConstraints(sc);
    assert ConstructorCount(|sc.teamConstructors|) in ScaffoldConstraints(sc);
  }

  /** What one re-selection produced: the solved problem, the selection and the moves it makes. */
  datatype Reselection = Reselection(problem: Problem, selection: Selection, moves: int)

  /**
   * The strategy half of a re-selection: build the strategy arguments from the race
   * and the team, validate them into a strategy, and execute it.
   */
  method SolveRace(kind: StrategyKind, team: Team, race: Race, racePrev: Race, maxMoves: int,
                   solve: Problem -> Selection)
    returns (r: Result<(Problem, Selection), RunError>)
    requires race.WellFormed() && racePrev.WellFormed()
    ensures kind == MaxP2PM ==> r.Err?
    ensures r.Ok? ==>
              var p := r.value.0;
              && r.value.1 == solve(p)
              && p.objective == Some(TotalCost) && p.constraints == ScaffoldConstraints(p.scaffold)
              && p.scaffold.WellFormed()
              && p.scaffold.teamDrivers == team.drivers && p.scaffold.teamConstructors == team.constructors
              && DriversPriced(team.drivers, race, racePrev)
              && (forall c :: c in team.constructors ==> c in race.constructors)
              && p.scaffold.maxCost - team.unusedBudget
                 == DriversValue(team.drivers, race, racePrev) + ConstructorsValue(team.constructors, race)
              && p.scaffold.maxMoves == (if kind == ZeroStop then |Unavailable(team.drivers, race.driverOrder)|
                                         else maxMoves)
  {
    var args := FactoryStrategy(race, racePrev, team, maxMoves);
    if args.Err? {
      return Err(FactoryFailed(args.error));
    }
    var created := Strategy.Create(kind, ToInputs(args.value));
    if created.Err? {
      return Err(ConfigFailed(created.error));
    }
    var strat := created.value;
    var executed := strat.Execute(solve);
    if executed.Err? {
      return Err(ConfigFailed(executed.error));
    }
    r := Ok(executed.value);
  }

  /** Empty the team and add the drivers, then the constructors, one at a time. */
  method Rebuild(team: Team, drivers: seq<string>, constructors: seq<string>) returns (o: Outcome<TeamError>)
    requires team.Valid()
    modifies team
    ensures team.Valid()
    ensures team.totalPoints == old(team.totalPoints) && team.unusedBudget == old(team.unusedBudget)
    ensures team.drsDriver == old(team.drsDriver)
    ensures o.Pass? ==> team.drivers == drivers && team.constructors == constructors
  {
    team.RemoveAllAssets();
    for i := 0 to |drivers|
      invariant team.Valid() && team.drivers == drivers[..i] && team.constructors == []
      invariant team.totalPoints == old(team.totalPoints) && team.unusedBudget == old(team.unusedBudget)
      invariant team.drsDriver == old(team.drsDriver)
    {
      o := team.AddAsset(DriverType, drivers[i]);
      if o.Fail? {
        return;
      }
      assert drivers[..i + 1] == drivers[..i] + [drivers[i]];
    }
    assert drivers[..|drivers|] == drivers;
    for i := 0 to |constructors|
      invariant team.Valid() && team.drivers == drivers && team.constructors == constructors[..i]
      invariant team.totalPoints == old(team.totalPoints) && team.unusedBudget == old(team.unusedBudget)
      invariant team.drsDriver == old(team.drsDriver)
    {
      o := team.AddAsset(ConstructorType, constructors[i]);
      if o.Fail? {
        return;
      }
      assert constructors[..i + 1] == constructors[..i] + [constructors[i]];
    }
    assert constructors[..|constructors|] == constructors;
    o := Pass;
  }

  /** The part of a team that a re-selection replaces. */
  datatype Lineup = Lineup(drivers: seq<string>, constructors: seq<string>, unusedBudget: real, drsDriver: string)

  /** The team's current lineup. */
  function LineupOf(team: Team): (l: Lineup)
    reads team
    ensures l.drivers == team.drivers && l.constructors == team.constructors
    ensures l.unusedBudget == team.unusedBudget && l.drsDriver == team.drsDriver
  {
    Lineup(team.drivers, team.constructors, team.unusedBudget, team.drsDriver)
  }

  /**
   * What a re-selection for `race` does to the lineup `before`: the solved problem
   * was built from `before` (its rosters priced in the race, its cost cap the total
   * budget, its moves cap the zero-stop count or `maxMoves`), and `after` is the
   * solver's selection in variable order, with the selection's unused budget and
   * the strategy's DRS driver; the moves are those of the selection.
   */
  ghost predicate Reselected(kind: StrategyKind, race: Race, racePrev: Race, maxMoves: int,
                             solve: Problem -> Selection, drs: (Problem, Selection) -> string,
                             before: Lineup, after: Lineup, step: Reselection)
  {
    var p := step.problem;
    var sel := step.selection;
    && sel == solve(p)
    && p.objective == Some(TotalCost) && p.constraints == ScaffoldConstraints(p.scaffold)
    && p.scaffold.WellFormed()
    && p.scaffold.teamDrivers == before.drivers && p.scaffold.teamConstructors == before.constructors
    && DriversPriced(before.drivers, race, racePrev)
    && (forall c :: c in before.constructors ==> c in race.constructors)
    && p.scaffold.maxCost - before.unusedBudget
       == DriversValue(before.drivers, race, racePrev) + ConstructorsValue(before.constructors, race)
    && p.scaffold.maxMoves == (if kind == ZeroStop then |Unavailable(before.drivers, race.driverOrder)|
                               else maxMoves)
    && after.drivers == Chosen(p.scaffold.driverList, sel.drivers)
    && after.constructors == Chosen(p.scaffold.constructorList, sel.constructors)
    && after.unusedBudget == UnusedBudget(p.scaffold, sel)
    && after.drsDriver == drs(p, sel)
    && step.moves == Moves(p.scaffold, sel)
  }

  /**
   * A re-selection whose selection meets the problem's constraints leaves rosters of
   * the sizes the team had, without repeats: re-selection keeps the roster sizes.
   */
  lemma ReselectionKeepsRosterSizes(kind: StrategyKind, race: Race, racePrev: Race, maxMoves: int,
                                    solve: Problem -> Selection, drs: (Problem, Selection) -> string,
                                    before: Lineup, after: Lineup, step: Reselection)
    requires Reselected(kind, race, racePrev, maxMoves, solve, drs, before, after, step)
    requires Feasible(step.problem.scaffold, step.problem.constraints, step.selection)
    ensures |after.drivers| == |before.drivers| && |after.constructors| == |before.constructors|
    ensures Distinct(after.drivers) && Distinct(after.constructors)
  {
    FeasibleSelectionKeepsRosterSizes(step.problem.scaffold, step.selection);
  }

  /**
   * The re-selection step of `run_for_team`: execute the strategy, set the unused
   * budget from the selection, rebuild both rosters from the selected names in
   * variable order, and take the DRS driver from the strategy.
   */
  method Reselect(kind: StrategyKind, team: Team, race: Race, racePrev: Race, maxMoves: int,
                  solve: Problem -> Selection, drs: (Problem, Selection) -> string)
    returns (r: Result<Reselection, RunError>)
    requires team.Valid() && race.WellFormed() && racePrev.WellFormed()
    modifies team
    ensures team.Valid() && team.totalPoints == old(team.totalPoints)
    ensures kind == MaxP2PM ==> r.Err?
    ensures r.Ok? ==> Reselected(kind, race, racePrev, maxMoves, solve, drs, old(LineupOf(team)), LineupOf(team),
                                 r.value)
  {
    var solved := SolveRace(kind, team, race, racePrev, maxMoves, solve);
    if solved.Err? {
      return Err(solved.error);
    }
    var problem := solved.value.0;
    var sel := solved.value.1;
    var sc := problem.scaffold;
    team.unusedBudget := UnusedBudget(sc, sel);
    var moves := Moves(sc, sel);
    var rebuilt := Rebuild(team, Chosen(sc.driverList, sel.drivers), Chosen(sc.constructorList, sel.constructors));
    if rebuilt.Fail? {
      return Err(TeamFailed(rebuilt.error));
    }
    team.drsDriver := drs(problem, sel);
    r := Ok(Reselection(problem, sel, moves));
  }

  // ---------------------------------------------------------------------------
  // Result rows

  /** One roster entry of a result row: the name, its price and its points in the race. */
  datatype AssetEntry = AssetEntry(name: string, value: real, points: int)

  /** The result row of one race. */
  datatype ResultRow = ResultRow(
    strategy: string,
    season: int,
    race: int,
    totalValue: real,
    startingValue: real,
    points: int,
    totalPoints: int,
    unusedBudget: real,
    totalBudget: real,
    maxMoves: int,
    usedMoves: int,
    drsDriver: string,
    drivers: seq<AssetEntry>,
    constructors: seq<AssetEntry>)

  /** Columns `base + 3i` to `base + 3i + 2` label entry `i + 1` of a roster: `D1`, `D1_val`, `D1_pts`, ... */
  predicate LabelsEntry(cols: seq<string>, base: nat, prefix: string, i: nat) {
    && base + 3 * i + 2 < |cols|
    && var tag := prefix + NatToString(i + 1);
    && cols[base + 3 * i] == tag && cols[base + 3 * i + 1] == tag + "_val" && cols[base + 3 * i + 2] == tag + "_pts"
  }

  /** Labels stay labels when columns are added before and after them. */
  lemma LabelsShift(cols: seq<string>, before: seq<string>, after: seq<string>, base: nat, prefix: string, i: nat)
    requires LabelsEntry(cols, base, prefix, i)
    ensures LabelsEntry(before + cols + after, |before| + base, prefix, i)
  {
    var all := before + cols + after;
    assert all[|before| + base + 3 * i] == cols[base + 3 * i];
    assert all[|before| + base + 3 * i + 1] == cols[base + 3 * i + 1];
    assert all[|before| + base + 3 * i + 2] == cols[base + 3 * i + 2];
  }

  /** The labels of a roster's columns: `D1`, `D1_val`, `D1_pts`, `D2`, ... */
  function EntryColumns(prefix: string, n: nat): (cols: seq<string>)
    ensures |cols| == 3 * n
    ensures forall i :: 0 <= i < n ==> LabelsEntry(cols, 0, prefix, i)
  {
    if n == 0 then []
    else
      var prev := EntryColumns(prefix, n - 1);
      var tag := prefix + NatToString(n);
      var cols := prev + [tag, tag + "_val", tag + "_pts"];
      assert forall i :: 0 <= i < n ==> LabelsEntry(cols, 0, prefix, i) by {
        forall i | 0 <= i < n ensures LabelsEntry(cols, 0, prefix, i) {
          if i < n - 1 {
            LabelsShift(prev, [], [tag, tag + "_val", tag + "_pts"], 0, prefix, i);
            assert [] + prev + [tag, tag + "_val", tag + "_pts"] == cols;
          }
        }
      }
      cols
  }

  /** The names of the row's twelve fixed columns, in the order the row dictionary receives them. */
  const FIXED_COLUMNS: seq<string> :=
    ["strategy", "season", "race", "total_value", "starting_value", "points", "total_points",
     "unused_budget", "total_budget", "max_moves", "used_moves", "drs_driver"]

  /** Where the constructor columns of a row start: after the fixed and the driver columns. */
  function ConstructorColumnsStart(row: ResultRow): nat {
    |FIXED_COLUMNS| + 3 * |row.drivers|
  }

  /**
   * The row's columns in the order the row dictionary receives them: the twelve
   * fixed columns, then `Di`, `Di_val`, `Di_pts` for each driver, then the same
   * with `C` for each constructor.
   */
  function RowColumns(row: ResultRow): (cols: seq<string>)
    ensures |cols| == |FIXED_COLUMNS| + 3 * (|row.drivers| + |row.constructors|)
    ensures cols[..|FIXED_COLUMNS|] == FIXED_COLUMNS
    ensures forall i :: 0 <= i < |row.drivers| ==> LabelsEntry(cols, |FIXED_COLUMNS|, "D", i)
    ensures forall j :: 0 <= j < |row.constructors| ==>
              LabelsEntry(cols, ConstructorColumnsStart(row), "C", j)
  {
    var ds := EntryColumns("D", |row.drivers|);
    var cs := EntryColumns("C", |row.constructors|);
    var cols := FIXED_COLUMNS + ds + cs;
    assert forall i :: 0 <= i < |row.drivers| ==> LabelsEntry(cols, |FIXED_COLUMNS|, "D", i) by {
      forall i | 0 <= i < |row.drivers| ensures LabelsEntry(cols, |FIXED_COLUMNS|, "D", i) {
        LabelsShift(ds, FIXED_COLUMNS, cs, 0, "D", i);
      }
    }
    assert forall j :: 0 <= j < |row.constructors| ==>
             LabelsEntry(cols, ConstructorColumnsStart(row), "C", j) by {
      forall j | 0 <= j < |row.constructors|
        ensures LabelsEntry(cols, ConstructorColumnsStart(row), "C", j)
      {
        LabelsShift(cs, FIXED_COLUMNS + ds, [], 0, "C", j);
        assert FIXED_COLUMNS + ds + cs + [] == cols;
      }
    }
    cols
  }

  /** The entries of some drivers in a race. */
  function DriverEntries(names: seq<string>, race: Race): (es: seq<AssetEntry>)
    requires forall d :: d in names ==> d in race.drivers
    ensures |es| == |names| && forall i :: 0 <= i < |names| ==> es[i].name == names[i]
    ensures EntryNames(es) == names
  {
    seq(|names|, i requires 0 <= i < |names| =>
      AssetEntry(names[i], race.drivers[names[i]].price, race.drivers[names[i]].points))
  }

  /** The entries of some constructors in a race. */
  function ConstructorEntries(names: seq<string>, race: Race): (es: seq<AssetEntry>)
    requires forall c :: c in names ==> c in race.constructors
    ensures |es| == |names| && forall i :: 0 <= i < |names| ==> es[i].name == names[i]
    ensures EntryNames(es) == names
  {
    seq(|names|, i requires 0 <= i < |names| =>
      AssetEntry(names[i], race.constructors[names[i]].price, race.constructors[names[i]].points))
  }

  /** The names of some roster entries, in order. */
  function EntryNames(es: seq<AssetEntry>): (names: seq<string>)
    ensures |names| == |es| && forall i :: 0 <= i < |es| ==> names[i] == es[i].name
  {
    seq(|es|, i requires 0 <= i < |es| => es[i].name)
  }

  /** The driver loop of `get_row_intermediate_results`: each driver's price and points in the race. */
  method CollectDriverEntries(names: seq<string>, race: Race) returns (r: Result<seq<AssetEntry>, RunError>)
    ensures r.Ok? <==> forall d :: d in names ==> d in race.drivers
    ensures r.Ok? ==> r.value == DriverEntries(names, race)
    ensures r.Err? ==> r.error.TeamFailed? && r.error.teamError.UnknownDriver?
                       && r.error.teamError.name in names && r.error.teamError.name !in race.drivers
  {
    var entries: seq<AssetEntry> := [];
    for i := 0 to |names|
      invariant forall k :: 0 <= k < i ==> names[k] in race.drivers
      invariant entries == DriverEntries(names[..i], race)
    {
      if names[i] !in race.drivers {
        return Err(TeamFailed(UnknownDriver(names[i])));
      }
      var d := race.drivers[names[i]];
      entries := entries + [AssetEntry(names[i], d.price, d.points)];
    }
    assert names[..|names|] == names;
    r := Ok(entries);
  }

  /** The constructor loop of `get_row_intermediate_results`, over constructors the race prices. */
  method CollectConstructorEntries(names: seq<string>, race: Race) returns (es: seq<AssetEntry>)
    requires forall c :: c in names ==> c in race.constructors
    ensures es == ConstructorEntries(names, race)
  {
    es := [];
    for i := 0 to |names|
      invariant es == ConstructorEntries(names[..i], race)
    {
      var c := race.constructors[names[i]];
      es := es + [AssetEntry(names[i], c.price, c.points)];
    }
    assert names[..|names|] == names;
  }

  /** Everything the row of a race looks up is there. */
  predicate RowComputable(team: Team, season: Season, race: Race, racePrev: Race, raceNum: int)
    reads team
  {
    && team.CheckAssetCounts().Pass?
    && DriversPriced(team.drivers, race, racePrev)
    && (forall c :: c in team.constructors ==> c in race.constructors)
    && raceNum in season.races
    && DriversPriced(team.drivers, season.races[raceNum], racePrev)
    && (forall c :: c in team.constructors ==> c in season.races[raceNum].constructors)
    && (forall d :: d in team.drivers ==> d in race.drivers)
  }

  /**
   * `get_row_intermediate_results`: the run's figures, the team's total value and
   * total budget, and each roster sorted by name with each name's price and points
   * in the race.
   */
  method GetRowIntermediateResults(stratName: string, team: Team, season: Season, seasonYear: int, race: Race,
                                   racePrev: Race, raceNum: int, racePoints: int, maxMoves: int,
                                   usedMoves: int, startingValue: real)
    returns (r: Result<ResultRow, RunError>)
    ensures r.Ok? <==> RowComputable(team, season, race, racePrev, raceNum)
    ensures r.Ok? ==>
              && r.value.strategy == stratName && r.value.season == seasonYear && r.value.race == raceNum
              && r.value.totalValue == DriversValue(team.drivers, race, racePrev)
                                       + ConstructorsValue(team.constructors, race)
              && r.value.startingValue == startingValue && r.value.points == racePoints
              && r.value.totalPoints == team.totalPoints && r.value.unusedBudget == team.unusedBudget
              && r.value.totalBudget - team.unusedBudget
                 == DriversValue(team.drivers, season.races[raceNum], racePrev)
                    + ConstructorsValue(team.constructors, season.races[raceNum])
              && r.value.maxMoves == maxMoves && r.value.usedMoves == usedMoves
              && r.value.drsDriver == team.drsDriver
              && r.value.drivers == DriverEntries(Sort(team.drivers), race)
              && r.value.constructors == ConstructorEntries(Sort(team.constructors), race)
  {
    var totalValue := team.TotalValue(race, racePrev);
    if totalValue.Err? {
      return Err(TeamFailed(totalValue.error));
    }
    if raceNum !in season.races {
      return Err(MissingRace(raceNum));
    }
    var totalBudget := team.TotalBudget(season.races[raceNum], racePrev);
    if totalBudget.Err? {
      return Err(TeamFailed(totalBudget.error));
    }
    var drivers := CollectDriverEntries(Sort(team.drivers), race);
    if drivers.Err? {
      return Err(drivers.error);
    }
    var constructors := CollectConstructorEntries(Sort(team.constructors), race);
    r := Ok(ResultRow(stratName, seasonYear, raceNum, totalValue.value, startingValue, racePoints,
                      team.totalPoints, team.unusedBudget, totalBudget.value, maxMoves, usedMoves,
                      team.drsDriver, drivers.value, constructors));
  }

  // ---------------------------------------------------------------------------
  // The season loop

  /** The points of some rows, summed. */
  function PointsSum(rows: seq<ResultRow>): int {
    if rows == [] then 0 else PointsSum(rows[..|rows| - 1]) + rows[|rows| - 1].points
  }

  /** Each row's running total is the starting total plus the points of the rows up to it. */
  predicate RunningTotals(rows: seq<ResultRow>, startPoints: int) {
    forall k :: 0 <= k < |rows| ==> rows[k].totalPoints == startPoints + PointsSum(rows[..k + 1])
  }

  lemma RunningTotalsStep(rows: seq<ResultRow>, startPoints: int, row: ResultRow)
    requires RunningTotals(rows, startPoints)
    requires row.totalPoints == startPoints + PointsSum(rows) + row.points
    ensures RunningTotals(rows + [row], startPoints)
    ensures PointsSum(rows + [row]) == PointsSum(rows) + row.points
  {
    var next := rows + [row];
    assert next[..|rows|] == rows;
    assert next[..|rows| + 1] == next;
    forall k | 0 <= k < |next|
      ensures next[k].totalPoints == startPoints + PointsSum(next[..k + 1])
    {
      if k < |rows| {
        assert next[..k + 1] == rows[..k + 1];
      }
    }
  }

  /**
   * The moves each row was allowed and used: the starting race allows 2 and used
   * none (-1); a later race allows 3 when the previous race was re-selected with
   * fewer than 2 moves, and 2 otherwise.
   */
  predicate MovesSchedule(rows: seq<ResultRow>) {
    && (|rows| > 0 ==> rows[0].maxMoves == 2 && rows[0].usedMoves == -1)
    && forall k :: 1 <= k < |rows| ==>
         rows[k].maxMoves == (if k >= 2 && rows[k - 1].usedMoves < 2 then 3 else 2)
  }

  lemma MovesScheduleStep(rows: seq<ResultRow>, bonus: bool, row: ResultRow)
    requires MovesSchedule(rows)
    requires bonus == (|rows| >= 2 && rows[|rows| - 1].usedMoves < 2)
    requires row.maxMoves == (if bonus then 3 else 2)
    requires |rows| == 0 ==> row.usedMoves == -1
    ensures MovesSchedule(rows + [row])
  {
    var next := rows + [row];
    forall k | 1 <= k < |next|
      ensures next[k].maxMoves == (if k >= 2 && next[k - 1].usedMoves < 2 then 3 else 2)
    {
      if k < |rows| {
        assert next[k] == rows[k] && next[k - 1] == rows[k - 1];
      }
    }
  }

  /** Under the schedule every race allows two or three moves. */
  lemma MovesScheduleBounds(rows: seq<ResultRow>)
    requires MovesSchedule(rows)
    ensures forall k :: 0 <= k < |rows| ==> rows[k].maxMoves == 2 || rows[k].maxMoves == 3
  {
    forall k | 0 <= k < |rows| ensures rows[k].maxMoves == 2 || rows[k].maxMoves == 3 {
      if k >= 1 {
        assert rows[k].maxMoves == (if k >= 2 && rows[k - 1].usedMoves < 2 then 3 else 2);
      }
    }
  }

  /** The rows so far carry the run's figures and follow the races in order. */
  predicate RowsFollow(rows: seq<ResultRow>, races: seq<int>, name: string, seasonYear: int, startingValue: real) {
    && |rows| <= |races|
    && forall k :: 0 <= k < |rows| ==>
         && rows[k].race == races[k] && rows[k].strategy == name
         && rows[k].season == seasonYear && rows[k].startingValue == startingValue
  }

  lemma RowsFollowStep(rows: seq<ResultRow>, races: seq<int>, name: string, seasonYear: int, startingValue: real,
                       row: ResultRow)
    requires RowsFollow(rows, races, name, seasonYear, startingValue) && |rows| < |races|
    requires row.race == races[|rows|] && row.strategy == name && row.season == seasonYear
    requires row.startingValue == startingValue
    ensures RowsFollow(rows + [row], races, name, seasonYear, startingValue)
  {
  }

  /** What the loop of `run_for_team` has built after its first `|rows|` races. */
  ghost predicate RunSoFar(rows: seq<ResultRow>, races: seq<int>, name: string, seasonYear: int,
                           startingValue: real, startPoints: int, bonus: bool, usedMoves: int)
  {
    && RowsFollow(rows, races, name, seasonYear, startingValue)
    && RunningTotals(rows, startPoints) && MovesSchedule(rows)
    && bonus == (|rows| >= 2 && rows[|rows| - 1].usedMoves < 2)
    && usedMoves == (if |rows| == 0 then -1 else rows[|rows| - 1].usedMoves)
  }

  lemma RunSoFarStep(rows: seq<ResultRow>, races: seq<int>, name: string, seasonYear: int,
                     startingValue: real, startPoints: int, bonus: bool, usedMoves: int, row: ResultRow)
    requires RunSoFar(rows, races, name, seasonYear, startingValue, startPoints, bonus, usedMoves)
    requires |rows| < |races| && row.race == races[|rows|] && row.strategy == name && row.season == seasonYear
    requires row.startingValue == startingValue && row.totalPoints == startPoints + PointsSum(rows) + row.points
    requires row.maxMoves == (if bonus then 3 else 2) && (|rows| == 0 ==> row.usedMoves == usedMoves)
    ensures RunSoFar(rows + [row], races, name, seasonYear, startingValue, startPoints,
                     |rows| >= 1 && row.usedMoves < 2, row.usedMoves)
    ensures PointsSum(rows + [row]) == PointsSum(rows) + row.points
  {
    RowsFollowStep(rows, races, name, seasonYear, startingValue, row);
    RunningTotalsStep(rows, startPoints, row);
    MovesScheduleStep(rows, bonus, row);
  }

  /**
   * The row of a race and the lineup it was scored with: the row lists the lineup's
   * rosters (each name as often as the roster holds it), its unused budget and DRS
   * driver. The starting race
   * keeps the lineup it was given; a later race re-selected it, and the row records
   * the moves of that re-selection.
   */
  ghost predicate RaceRecorded(kind: StrategyKind, season: Season, solve: Problem -> Selection,
                               drs: (Problem, Selection) -> string, row: ResultRow,
                               before: Lineup, after: Lineup, step: Option<Reselection>, first: bool)
  {
    && multiset(EntryNames(row.drivers)) == multiset(after.drivers)
    && multiset(EntryNames(row.constructors)) == multiset(after.constructors)
    && row.unusedBudget == after.unusedBudget && row.drsDriver == after.drsDriver
    && (first ==> step == None && after == before)
    && (!first ==>
          && step.Some? && row.usedMoves == step.value.moves
          && row.race in season.races && PreviousRace(row.race) in season.races
          && Reselected(kind, season.races[row.race], season.races[PreviousRace(row.race)], row.maxMoves,
                        solve, drs, before, after, step.value))
  }

  /**
   * One pass of the loop of `run_for_team`: look up the previous race, re-select
   * the team unless this is the starting race, score it and build the row.
   */
  method RunRace(kind: StrategyKind, team: Team, season: Season, seasonYear: int, raceNum: int, reselect: bool,
                 maxMoves: int, usedMoves: int, startingValue: real,
                 solve: Problem -> Selection, drs: (Problem, Selection) -> string)
    returns (r: Result<ResultRow, RunError>, ghost step: Option<Reselection>)
    requires team.Valid() && raceNum in season.races
    requires forall k :: k in season.races ==> season.races[k].WellFormed()
    modifies team
    ensures team.Valid()
    ensures PreviousRace(raceNum) !in season.races ==> r == Err(MissingRace(PreviousRace(raceNum)))
    ensures reselect && kind == MaxP2PM ==> r.Err?
    ensures r.Ok? ==>
              && r.value.race == raceNum && r.value.strategy == KindName(kind) && r.value.season == seasonYear
              && r.value.startingValue == startingValue && r.value.maxMoves == maxMoves
              && (!reselect ==> r.value.usedMoves == usedMoves)
              && team.totalPoints == old(team.totalPoints) + r.value.points
              && r.value.totalPoints == team.totalPoints
              && team.CheckAssetCounts().Pass?
              && |r.value.drivers| == team.numDrivers && |r.value.constructors| == team.numConstructors
              && RaceRecorded(kind, season, solve, drs, r.value, old(LineupOf(team)), LineupOf(team), step, !reselect)
  {
    step := None;
    var prevNum := PreviousRace(raceNum);
    if prevNum !in season.races {
      return Err(MissingRace(prevNum)), step;
    }
    var race := season.races[raceNum];
    var racePrev := season.races[prevNum];
    var used := usedMoves;
    if reselect {
      var selected := Reselect(kind, team, race, racePrev, maxMoves, solve, drs);
      if selected.Err? {
        return Err(selected.error), step;
      }
      used := selected.value.moves;
      step := Some(selected.value);
    }
    var points := team.UpdatePoints(race);
    if points.Err? {
      return Err(TeamFailed(points.error)), step;
    }
    r := GetRowIntermediateResults(KindName(kind), team, season, seasonYear, race, racePrev, raceNum,
                                   points.value, maxMoves, used, startingValue);
  }

  /** In ascending order from the starting race, every race but the first comes after the start. */
  lemma LaterRaces(races: seq<int>, start: int)
    requires |races| > 0 && races[0] == start
    requires forall i, j :: 0 <= i < j < |races| ==> races[i] < races[j]
    ensures forall i :: 0 <= i < |races| ==> (races[i] > start <==> i > 0)
  {
    forall i | 0 <= i < |races| ensures races[i] > start <==> i > 0 {
      if i > 0 { assert races[0] < races[i]; }
    }
  }

  /**
   * The run's history: `lineups[0]` is the team as given and `lineups[k + 1]` the
   * team scored at race k. The starting race kept the lineup it was given, and
   * every later race re-selected the lineup the race before it left behind.
   */
  ghost predicate History(kind: StrategyKind, season: Season, solve: Problem -> Selection,
                          drs: (Problem, Selection) -> string, rows: seq<ResultRow>,
                          lineups: seq<Lineup>, steps: seq<Option<Reselection>>)
  {
    && |lineups| == |rows| + 1 && |steps| == |rows|
    && forall k :: 0 <= k < |rows| ==> RecordedAt(kind, season, solve, drs, rows, lineups, steps, k)
  }

  /** Race `k` of the run is recorded from the lineup before it. */
  ghost predicate RecordedAt(kind: StrategyKind, season: Season, solve: Problem -> Selection,
                             drs: (Problem, Selection) -> string, rows: seq<ResultRow>,
                             lineups: seq<Lineup>, steps: seq<Option<Reselection>>, k: int)
    requires 0 <= k < |rows| && |lineups| == |rows| + 1 && |steps| == |rows|
  {
    RaceRecorded(kind, season, solve, drs, rows[k], lineups[k], lineups[k + 1], steps[k], k == 0)
  }

  lemma HistoryStep(kind: StrategyKind, season: Season, solve: Problem -> Selection,
                    drs: (Problem, Selection) -> string, rows: seq<ResultRow>,
                    lineups: seq<Lineup>, steps: seq<Option<Reselection>>,
                    row: ResultRow, before: Lineup, after: Lineup, step: Option<Reselection>, first: bool)
    requires History(kind, season, solve, drs, rows, lineups, steps)
    requires RaceRecorded(kind, season, solve, drs, row, before, after, step, first)
    requires before == lineups[|rows|] && first == (|rows| == 0)
    ensures History(kind, season, solve, drs, rows + [row], lineups + [after], steps + [step])
  {
    var rows', lineups', steps' := rows + [row], lineups + [after], steps + [step];
    forall k | 0 <= k < |rows'|
      ensures RecordedAt(kind, season, solve, drs, rows', lineups', steps', k)
    {
      if k < |rows| {
        assert RecordedAt(kind, season, solve, drs, rows, lineups, steps, k);
        assert rows'[k] == rows[k] && lineups'[k] == lineups[k] && lineups'[k + 1] == lineups[k + 1];
        assert steps'[k] == steps[k];
      } else {
        assert rows'[k] == row && lineups'[k] == before && lineups'[k + 1] == after && steps'[k] == step;
      }
    }
  }

  /** Every row lists `numDrivers` drivers and `numConstructors` constructors. */
  predicate RowsSized(rows: seq<ResultRow>, numDrivers: nat, numConstructors: nat) {
    forall k :: 0 <= k < |rows| ==> |rows[k].drivers| == numDrivers && |rows[k].constructors| == numConstructors
  }

  lemma RowsSizedStep(rows: seq<ResultRow>, numDrivers: nat, numConstructors: nat, row: ResultRow)
    requires RowsSized(rows, numDrivers, numConstructors)
    requires |row.drivers| == numDrivers && |row.constructors| == numConstructors
    ensures RowsSized(rows + [row], numDrivers, numConstructors)
  {
  }

  /**
   * `run_for_team`: the starting value is the team's value at the starting race;
   * each race from the start on, in ascending order, allows 3 moves after a
   * re-selection that used fewer than 2 and 2 otherwise, re-selects the team except
   * at the starting race, scores the team once and records a row.
   */
  method RunForTeam(kind: StrategyKind, team: Team, season: Season, seasonYear: int, raceNumStart: int,
                    solve: Problem -> Selection, drs: (Problem, Selection) -> string)
    returns (r: Result<seq<ResultRow>, RunError>, ghost lineups: seq<Lineup>, ghost steps: seq<Option<Reselection>>)
    requires team.Valid()
    requires forall k :: k in season.races ==> season.races[k].WellFormed()
    modifies team
    ensures raceNumStart !in season.races ==> r == Err(MissingRace(raceNumStart))
    ensures r.Ok? ==>
              var races := RacesFrom(season, raceNumStart);
              && |r.value| == |races| && |races| > 0 && races[0] == raceNumStart
              && (var first := season.races[raceNumStart];
                  && DriversPriced(old(team.drivers), first, first)
                  && (forall c :: c in old(team.constructors) ==> c in first.constructors)
                  && r.value[0].startingValue
                     == DriversValue(old(team.drivers), first, first) + ConstructorsValue(old(team.constructors), first))
              && RowsFollow(r.value, races, KindName(kind), seasonYear, r.value[0].startingValue)
              && MovesSchedule(r.value)
              && RunningTotals(r.value, old(team.totalPoints))
              && team.totalPoints == old(team.totalPoints) + PointsSum(r.value)
              && History(kind, season, solve, drs, r.value, lineups, steps)
              && lineups[0] == old(LineupOf(team)) && lineups[|r.value|] == LineupOf(team)
              && team.CheckAssetCounts().Pass? && RowsSized(r.value, team.numDrivers, team.numConstructors)
  {
    lineups, steps := [], [];
    var races := RacesFrom(season, raceNumStart);
    if raceNumStart !in season.races {
      return Err(MissingRace(raceNumStart)), lineups, steps;
    }
    var start := season.races[raceNumStart];
    var startingValue := team.TotalValue(start, start);
    if startingValue.Err? {
      return Err(TeamFailed(startingValue.error)), lineups, steps;
    }
    LaterRaces(races, raceNumStart);
    r, lineups, steps := RunRaces(kind, team, season, seasonYear, raceNumStart, races, startingValue.value, solve, drs);
  }

  /** Everything the loop of `run_for_team` keeps about the rows, lineups and re-selections so far. */
  ghost predicate RunProgress(kind: StrategyKind, season: Season, seasonYear: int, races: seq<int>,
                              startingValue: real, startPoints: int,
                              solve: Problem -> Selection, drs: (Problem, Selection) -> string,
                              rows: seq<ResultRow>, lineups: seq<Lineup>, steps: seq<Option<Reselection>>,
                              bonus: bool, usedMoves: int, numDrivers: nat, numConstructors: nat,
                              first: Lineup, current: Lineup, points: int)
  {
    && |lineups| == |rows| + 1 && |steps| == |rows|
    && lineups[0] == first && lineups[|rows|] == current && points == startPoints + PointsSum(rows)
    && RunSoFar(rows, races, KindName(kind), seasonYear, startingValue, startPoints, bonus, usedMoves)
    && History(kind, season, solve, drs, rows, lineups, steps)
    && RowsSized(rows, numDrivers, numConstructors)
  }

  /**
   * What the loop of `run_for_team` has built once every race is run: one row per
   * race in order with the run's figures, running totals, the moves schedule, the
   * history of lineups and re-selections, and rows of the team's sizes.
   */
  ghost predicate RunDone(kind: StrategyKind, season: Season, seasonYear: int, races: seq<int>,
                          startingValue: real, startPoints: int,
                          solve: Problem -> Selection, drs: (Problem, Selection) -> string,
                          rows: seq<ResultRow>, lineups: seq<Lineup>, steps: seq<Option<Reselection>>,
                          numDrivers: nat, numConstructors: nat)
  {
    && |rows| == |races| && |lineups| == |rows| + 1
    && RowsFollow(rows, races, KindName(kind), seasonYear, startingValue)
    && RunningTotals(rows, startPoints) && MovesSchedule(rows)
    && History(kind, season, solve, drs, rows, lineups, steps)
    && RowsSized(rows, numDrivers, numConstructors)
  }

  lemma RunProgressDone(kind: StrategyKind, season: Season, seasonYear: int, races: seq<int>,
                        startingValue: real, startPoints: int,
                        solve: Problem -> Selection, drs: (Problem, Selection) -> string,
                        rows: seq<ResultRow>, lineups: seq<Lineup>, steps: seq<Option<Reselection>>,
                        bonus: bool, usedMoves: int, numDrivers: nat, numConstructors: nat,
                        first: Lineup, current: Lineup, points: int)
    requires RunProgress(kind, season, seasonYear, races, startingValue, startPoints, solve, drs,
                         rows, lineups, steps, bonus, usedMoves, numDrivers, numConstructors, first, current, points)
    requires |rows| == |races|
    ensures RunDone(kind, season, seasonYear, races, startingValue, startPoints, solve, drs,
                    rows, lineups, steps, numDrivers, numConstructors)
    ensures |lineups| == |rows| + 1 && lineups[0] == first && lineups[|rows|] == current
    ensures points == startPoints + PointsSum(rows)
  {
  }

  lemma RunProgressStart(kind: StrategyKind, season: Season, seasonYear: int, races: seq<int>,
                         startingValue: real, startPoints: int,
                         solve: Problem -> Selection, drs: (Problem, Selection) -> string,
                         lineup: Lineup, numDrivers: nat, numConstructors: nat)
    ensures RunProgress(kind, season, seasonYear, races, startingValue, startPoints, solve, drs,
                        [], [lineup], [], false, -1, numDrivers, numConstructors, lineup, lineup, startPoints)
  {
  }

  /**
   * The loop of `run_for_team` over the races from the start on: one row per race,
   * each allowed the moves the schedule gives it, the team's points running on.
   */
  method RunRaces(kind: StrategyKind, team: Team, season: Season, seasonYear: int, raceNumStart: int,
                  races: seq<int>, startingValue: real,
                  solve: Problem -> Selection, drs: (Problem, Selection) -> string)
    returns (r: Result<seq<ResultRow>, RunError>, ghost lineups: seq<Lineup>, ghost steps: seq<Option<Reselection>>)
    requires team.Valid()
    requires forall k :: k in season.races ==> season.races[k].WellFormed()
    requires forall k :: k in races ==> k in season.races
    requires forall i :: 0 <= i < |races| ==> (races[i] > raceNumStart <==> i > 0)
    modifies team
    ensures r.Ok? ==>
              && RunDone(kind, season, seasonYear, races, startingValue, old(team.totalPoints), solve, drs,
                         r.value, lineups, steps, team.numDrivers, team.numConstructors)
              && team.totalPoints == old(team.totalPoints) + PointsSum(r.value)
              && |lineups| == |r.value| + 1
              && lineups[0] == old(LineupOf(team)) && lineups[|r.value|] == LineupOf(team)
              && (|races| > 0 ==> team.CheckAssetCounts().Pass?)
  {
    ghost var start := LineupOf(team);
    ghost var startPoints := team.totalPoints;
    lineups, steps := [start], [];
    var rows: seq<ResultRow> := [];
    var bonusFreeTransfer := false;
    var usedMoves := -1;
    RunProgressStart(kind, season, seasonYear, races, startingValue, startPoints, solve, drs,
                     start, team.numDrivers, team.numConstructors);
    for idx := 0 to |races|
      invariant team.Valid() && |rows| == idx
      invariant RunProgress(kind, season, seasonYear, races, startingValue, startPoints, solve, drs,
                            rows, lineups, steps, bonusFreeTransfer, usedMoves, team.numDrivers, team.numConstructors,
                            start, LineupOf(team), team.totalPoints)
      invariant idx > 0 ==> team.CheckAssetCounts().Pass?
    {
      var row, bonus, used, step := RunNextRace(kind, team, season, seasonYear, raceNumStart, races, startingValue,
                                                solve, drs, rows, lineups, steps, bonusFreeTransfer, usedMoves,
                                                startPoints, start);
      if row.Err? {
        return Err(row.error), lineups, steps;
      }
      rows, lineups, steps := rows + [row.value], lineups + [LineupOf(team)], steps + [step];
      bonusFreeTransfer, usedMoves := bonus, used;
    }
    RunProgressDone(kind, season, seasonYear, races, startingValue, startPoints, solve, drs,
                    rows, lineups, steps, bonusFreeTransfer, usedMoves, team.numDrivers, team.numConstructors,
                    start, LineupOf(team), team.totalPoints);
    r := Ok(rows);
  }

  /**
   * One pass of the loop of `RunRaces`: the race after the rows so far, allowed 3
   * moves after a re-selection under 2 and 2 otherwise, re-selected unless it is
   * the starting race; a re-selection sets the bonus flag and the used moves for
   * the next pass, and the row extends everything the loop keeps.
   */
  method RunNextRace(kind: StrategyKind, team: Team, season: Season, seasonYear: int, raceNumStart: int,
                     races: seq<int>, startingValue: real,
                     solve: Problem -> Selection, drs: (Problem, Selection) -> string,
                     rows: seq<ResultRow>, ghost lineups: seq<Lineup>, ghost steps: seq<Option<Reselection>>,
                     bonus: bool, usedMoves: int, ghost startPoints: int, ghost first: Lineup)
    returns (r: Result<ResultRow, RunError>, bonus': bool, usedMoves': int, ghost step: Option<Reselection>)
    requires team.Valid()
    requires forall k :: k in season.races ==> season.races[k].WellFormed()
    requires |rows| < |races| && races[|rows|] in season.races
    requires races[|rows|] > raceNumStart <==> |rows| > 0
    requires RunProgress(kind, season, seasonYear, races, startingValue, startPoints, solve, drs,
                         rows, lineups, steps, bonus, usedMoves, team.numDrivers, team.numConstructors,
                         first, LineupOf(team), team.totalPoints)
    modifies team
    ensures team.Valid()
    ensures r.Ok? ==>
              && RunProgress(kind, season, seasonYear, races, startingValue, startPoints, solve, drs,
                             rows + [r.value], lineups + [LineupOf(team)], steps + [step], bonus', usedMoves',
                             team.numDrivers, team.numConstructors, first, LineupOf(team), team.totalPoints)
              && team.CheckAssetCounts().Pass?
  {
    var raceNum := races[|rows|];
    var maxMoves := if bonus then 3 else 2;
    r, step := RunRace(kind, team, season, seasonYear, raceNum, raceNum > raceNumStart, maxMoves, usedMoves,
                       startingValue, solve, drs);
    bonus', usedMoves' := bonus, usedMoves;
    if r.Ok? && raceNum > raceNumStart {
      bonus', usedMoves' := r.value.usedMoves < 2, r.value.usedMoves;
    }
    if r.Ok? {
      RunProgressStep(kind, season, seasonYear, races, startingValue, startPoints, solve, drs, rows, lineups, steps,
                      bonus, usedMoves, team.numDrivers, team.numConstructors, first, old(LineupOf(team)),
                      old(team.totalPoints), r.value, LineupOf(team), step, bonus', usedMoves', team.totalPoints);
    }
  }

  /** One more race run extends everything the loop of `run_for_team` keeps. */
  lemma RunProgressStep(kind: StrategyKind, season: Season, seasonYear: int, races: seq<int>,
                        startingValue: real, startPoints: int,
                        solve: Problem -> Selection, drs: (Problem, Selection) -> string,
                        rows: seq<ResultRow>, lineups: seq<Lineup>, steps: seq<Option<Reselection>>,
                        bonus: bool, usedMoves: int, numDrivers: nat, numConstructors: nat,
                        first: Lineup, current: Lineup, points: int,
                        row: ResultRow, after: Lineup, step: Option<Reselection>,
                        bonus': bool, usedMoves': int, points': int)
    requires RunProgress(kind, season, seasonYear, races, startingValue, startPoints, solve, drs,
                         rows, lineups, steps, bonus, usedMoves, numDrivers, numConstructors, first, current, points)
    requires |rows| < |races| && row.race == races[|rows|] && row.strategy == KindName(kind)
    requires row.season == seasonYear && row.startingValue == startingValue
    requires row.maxMoves == (if bonus then 3 else 2) && (|rows| == 0 ==> row.usedMoves == usedMoves)
    requires points' == points + row.points && row.totalPoints == points'
    requires |row.drivers| == numDrivers && |row.constructors| == numConstructors
    requires RaceRecorded(kind, season, solve, drs, row, current, after, step, |rows| == 0)
    requires bonus' == (|rows| >= 1 && row.usedMoves < 2) && usedMoves' == row.usedMoves
    ensures RunProgress(kind, season, seasonYear, races, startingValue, startPoints, solve, drs,
                        rows + [row], lineups + [after], steps + [step], bonus', usedMoves', numDrivers, numConstructors,
                        first, after, points')
  {
    RunSoFarStep(rows, races, KindName(kind), seasonYear, startingValue, startPoints, bonus, usedMoves, row);
    HistoryStep(kind, season, solve, drs, rows, lineups, steps, row, current, after, step, |rows| == 0);
    RowsSizedStep(rows, numDrivers, numConstructors, row);
    assert (lineups + [after])[0] == first;
  }
}
