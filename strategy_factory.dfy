/**
 * The strategy factory: the inputs of a strategy for one team at one race, taken
 * from the race's line-up and the team's roster and budget.
 */
module StrategyFactory {
  import opened Wrappers
  import opened Text
  import opened Assets
  import opened Seasons
  import opened Teams
  import opened Lp
  import opened StrategyBase

  /** Everything `factory_strategy` hands to a strategy's constructor. */
  datatype StrategyArgs = StrategyArgs(
    teamDrivers: seq<string>,
    teamConstructors: seq<string>,
    availableDrivers: seq<string>,
    availableConstructors: seq<string>,
    driverPairs: map<string, string>,
    driverPairsOrder: seq<string>,
    prevDriverPairs: map<string, string>,
    maxCost: real,
    maxMoves: int,
    prices: map<string, real>,
    pricesOrder: seq<string>,
    derivs: map<string, map<string, real>>)

  datatype FactoryError =
    | BudgetError(cause: TeamError)
    | MissingDerivation(deriv: string, name: string)

  /** Each racing driver mapped to the constructor on its record. */
  function Pairings(race: Race): (m: map<string, string>)
    requires race.WellFormed()
    ensures forall d :: d in m <==> d in race.driverOrder
    ensures forall d :: d in m ==> m[d] in race.constructors
  {
    map d | d in race.drivers :: race.drivers[d].constructorName
  }

  /** Each racing asset's price; a constructor's price wins over a driver of the same name. */
  function RacePrices(race: Race): (m: map<string, real>)
    ensures m.Keys == race.drivers.Keys + race.constructors.Keys
    ensures forall c :: c in race.constructors ==> m[c] == race.constructors[c].price
    ensures forall d :: d in race.drivers && d !in race.constructors ==> m[d] == race.drivers[d].price
  {
    map k | k in race.drivers.Keys + race.constructors.Keys ::
      if k in race.constructors then race.constructors[k].price else race.drivers[k].price
  }

  /**
   * The key order of the factory's price dictionary: the drivers in race order, then
   * the constructors whose name no driver has taken (an overwrite keeps its place).
   */
  function PricesOrder(race: Race): (keys: seq<string>)
    requires race.WellFormed()
    ensures KeyOrder(keys, RacePrices(race))
  {
    Dedup(race.driverOrder + race.constructorOrder)
  }

  /** The derivation names on the drivers listed. */
  function DriverDerivNames(race: Race, names: seq<string>): (s: set<string>)
    requires forall n :: n in names ==> n in race.drivers
    ensures forall k :: k in s <==> exists n :: n in names && k in race.drivers[n].derivs
  {
    if names == [] then {}
    else
      var p := names[..|names| - 1];
      assert names == p + [names[|names| - 1]];
      DriverDerivNames(race, p) + race.drivers[names[|names| - 1]].derivs.Keys
  }

  /** The derivation names on the constructors listed. */
  function ConstructorDerivNames(race: Race, names: seq<string>): (s: set<string>)
    requires forall n :: n in names ==> n in race.constructors
    ensures forall k :: k in s <==> exists n :: n in names && k in race.constructors[n].derivs
  {
    if names == [] then {}
    else
      var p := names[..|names| - 1];
      assert names == p + [names[|names| - 1]];
      ConstructorDerivNames(race, p) + race.constructors[names[|names| - 1]].derivs.Keys
  }

  /** Every derivation name that some racing asset carries. */
  function DerivNames(race: Race): set<string>
    requires race.WellFormed()
  {
    DriverDerivNames(race, race.driverOrder) + ConstructorDerivNames(race, race.constructorOrder)
  }

  /** Every racing driver and constructor carries derivation `k`. */
  predicate HasDerivEverywhere(race: Race, k: string) {
    && (forall d :: d in race.drivers ==> k in race.drivers[d].derivs)
    && (forall c :: c in race.constructors ==> k in race.constructors[c].derivs)
  }

  /** Derivation `k` of every racing asset; a constructor's value wins over a driver of the same name. */
  function DerivColumn(race: Race, k: string): map<string, real>
    requires HasDerivEverywhere(race, k)
  {
    map n | n in race.drivers.Keys + race.constructors.Keys ::
      if n in race.constructors then race.constructors[n].derivs[k] else race.drivers[n].derivs[k]
  }

  /** The drivers' part of the price loop: one price per driver, and the derivation names seen. */
  method CollectDriverPrices(race: Race) returns (prices: map<string, real>, names: set<string>)
    requires race.WellFormed()
    ensures forall k :: k in prices <==> k in race.drivers
    ensures forall k :: k in prices ==> prices[k] == race.drivers[k].price
    ensures names == DriverDerivNames(race, race.driverOrder)
  {
    prices := map[];
    names := {};
    var i := 0;
    while i < |race.driverOrder|
      invariant 0 <= i <= |race.driverOrder|
      invariant DriverPricesSoFar(race, prices, i)
      invariant names == DriverDerivNames(race, race.driverOrder[..i])
    {
      var driver := race.drivers[race.driverOrder[i]];
      DriverPricesStep(race, prices, i);
      DriverDerivNamesSnoc(race, race.driverOrder, i);
      prices := prices[driver.driver := driver.price];
      names := names + driver.derivs.Keys;
      i := i + 1;
    }
    assert race.driverOrder[..i] == race.driverOrder;
  }

  /** The prices of the first `i` drivers of the key order. */
  ghost predicate DriverPricesSoFar(race: Race, prices: map<string, real>, i: nat)
    requires i <= |race.driverOrder|
  {
    && (forall k :: k in prices <==> k in race.driverOrder[..i])
    && (forall k :: k in prices ==> k in race.drivers && prices[k] == race.drivers[k].price)
  }

  lemma DriverPricesStep(race: Race, prices: map<string, real>, i: nat)
    requires race.WellFormed() && i < |race.driverOrder| && DriverPricesSoFar(race, prices, i)
    ensures DriverPricesSoFar(race, prices[race.driverOrder[i] := race.drivers[race.driverOrder[i]].price], i + 1)
  {
    assert race.driverOrder[..i + 1] == race.driverOrder[..i] + [race.driverOrder[i]];
  }

  lemma DriverDerivNamesSnoc(race: Race, names: seq<string>, i: nat)
    requires i < |names| && forall n :: n in names ==> n in race.drivers
    ensures DriverDerivNames(race, names[..i + 1])
            == DriverDerivNames(race, names[..i]) + race.drivers[names[i]].derivs.Keys
  {
    assert names[..i + 1][..i] == names[..i];
  }

  lemma ConstructorDerivNamesSnoc(race: Race, names: seq<string>, j: nat)
    requires j < |names| && forall n :: n in names ==> n in race.constructors
    ensures ConstructorDerivNames(race, names[..j + 1])
            == ConstructorDerivNames(race, names[..j]) + race.constructors[names[j]].derivs.Keys
  {
    assert names[..j + 1][..j] == names[..j];
  }

  /** The prices after the drivers and the first `j` constructors of the key order. */
  ghost predicate ConstructorPricesSoFar(race: Race, prices: map<string, real>, j: nat)
    requires j <= |race.constructorOrder|
  {
    && (forall k :: k in prices <==> k in race.drivers || k in race.constructorOrder[..j])
    && (forall k :: k in prices ==>
          && (k in race.constructorOrder[..j] ==> k in race.constructors && prices[k] == race.constructors[k].price)
          && (k !in race.constructorOrder[..j] ==> k in race.drivers && prices[k] == race.drivers[k].price))
  }

  lemma ConstructorPricesStep(race: Race, prices: map<string, real>, j: nat)
    requires race.WellFormed() && j < |race.constructorOrder| && ConstructorPricesSoFar(race, prices, j)
    ensures ConstructorPricesSoFar(race, prices[race.constructorOrder[j] := race.constructors[race.constructorOrder[j]].price], j + 1)
  {
    assert race.constructorOrder[..j + 1] == race.constructorOrder[..j] + [race.constructorOrder[j]];
  }

  lemma ConstructorPricesDone(race: Race, prices: map<string, real>)
    requires race.WellFormed() && ConstructorPricesSoFar(race, prices, |race.constructorOrder|)
    ensures prices == RacePrices(race)
  {
    assert race.constructorOrder[..|race.constructorOrder|] == race.constructorOrder;
    assert prices.Keys == RacePrices(race).Keys;
  }

  lemma ConstructorPricesStart(race: Race, prices: map<string, real>)
    requires race.WellFormed()
    requires forall k :: k in prices <==> k in race.drivers
    requires forall k :: k in prices ==> prices[k] == race.drivers[k].price
    ensures ConstructorPricesSoFar(race, prices, 0)
    ensures ConstructorDerivNames(race, race.constructorOrder[..0]) == {}
  {
    assert race.constructorOrder[..0] == [];
  }

  /** The constructors' part of the price loop, continuing from the drivers' prices and names. */
  method CollectConstructorPrices(race: Race, prices0: map<string, real>, names0: set<string>)
    returns (prices: map<string, real>, names: set<string>)
    requires race.WellFormed()
    requires forall k :: k in prices0 <==> k in race.drivers
    requires forall k :: k in prices0 ==> prices0[k] == race.drivers[k].price
    ensures prices == RacePrices(race)
    ensures names == names0 + ConstructorDerivNames(race, race.constructorOrder)
  {
    prices := prices0;
    names := names0;
    var j := 0;
    ConstructorPricesStart(race, prices0);
    while j < |race.constructorOrder|
      invariant 0 <= j <= |race.constructorOrder|
      invariant ConstructorPricesSoFar(race, prices, j)
      invariant names == names0 + ConstructorDerivNames(race, race.constructorOrder[..j])
    {
      var cons := race.constructors[race.constructorOrder[j]];
      ConstructorDerivNamesSnoc(race, race.constructorOrder, j);
      ConstructorPricesStep(race, prices, j);
      prices := prices[cons.constructorName := cons.price];
      names := names + cons.derivs.Keys;
      j := j + 1;
    }
    assert race.constructorOrder[..j] == race.constructorOrder;
    ConstructorPricesDone(race, prices);
  }

  /** Derivation `k` of the first `i` drivers of the key order, each of whom carries it. */
  ghost predicate DriverColumnSoFar(race: Race, k: string, column: map<string, real>, i: nat)
    requires i <= |race.driverOrder|
  {
    && (forall n :: n in column <==> n in race.driverOrder[..i])
    && (forall n :: n in column ==> n in race.drivers && k in race.drivers[n].derivs
                                    && column[n] == race.drivers[n].derivs[k])
  }

  lemma DriverColumnStep(race: Race, k: string, column: map<string, real>, i: nat)
    requires race.WellFormed() && i < |race.driverOrder| && DriverColumnSoFar(race, k, column, i)
    requires k in race.drivers[race.driverOrder[i]].derivs
    ensures DriverColumnSoFar(race, k, column[race.driverOrder[i] := race.drivers[race.driverOrder[i]].derivs[k]], i + 1)
  {
    assert race.driverOrder[..i + 1] == race.driverOrder[..i] + [race.driverOrder[i]];
  }

  /** Derivation `k` of every driver and the first `j` constructors, each of whom carries it. */
  ghost predicate ConstructorColumnSoFar(race: Race, k: string, column: map<string, real>, j: nat)
    requires j <= |race.constructorOrder|
  {
    && (forall d :: d in race.drivers ==> k in race.drivers[d].derivs)
    && (forall n :: n in column <==> n in race.drivers || n in race.constructorOrder[..j])
    && (forall n :: n in column ==>
          && (n in race.constructorOrder[..j] ==>
                n in race.constructors && k in race.constructors[n].derivs && column[n] == race.constructors[n].derivs[k])
          && (n !in race.constructorOrder[..j] ==> column[n] == race.drivers[n].derivs[k]))
  }

  lemma ConstructorColumnStep(race: Race, k: string, column: map<string, real>, j: nat)
    requires race.WellFormed() && j < |race.constructorOrder| && ConstructorColumnSoFar(race, k, column, j)
    requires k in race.constructors[race.constructorOrder[j]].derivs
    ensures ConstructorColumnSoFar(race, k,
              column[race.constructorOrder[j] := race.constructors[race.constructorOrder[j]].derivs[k]], j + 1)
  {
    assert race.constructorOrder[..j + 1] == race.constructorOrder[..j] + [race.constructorOrder[j]];
  }

  lemma ConstructorColumnDone(race: Race, k: string, column: map<string, real>)
    requires race.WellFormed() && ConstructorColumnSoFar(race, k, column, |race.constructorOrder|)
    ensures HasDerivEverywhere(race, k) && column == DerivColumn(race, k)
  {
    assert race.constructorOrder[..|race.constructorOrder|] == race.constructorOrder;
    assert column.Keys == DerivColumn(race, k).Keys;
  }

  /** The drivers' part of a derivation column. */
  method DriverDerivColumn(race: Race, k: string) returns (r: Result<map<string, real>, FactoryError>)
    requires race.WellFormed()
    ensures r.Ok? <==> forall d :: d in race.drivers ==> k in race.drivers[d].derivs
    ensures r.Ok? ==> DriverColumnSoFar(race, k, r.value, |race.driverOrder|)
    ensures r.Err? ==> && r.error.MissingDerivation? && r.error.deriv == k
                       && r.error.name in race.drivers && k !in race.drivers[r.error.name].derivs
  {
    var column: map<string, real> := map[];
    var i := 0;
    while i < |race.driverOrder|
      invariant 0 <= i <= |race.driverOrder|
      invariant DriverColumnSoFar(race, k, column, i)
    {
      var driver := race.drivers[race.driverOrder[i]];
      if k !in driver.derivs {
        return Err(MissingDerivation(k, driver.driver));
      }
      DriverColumnStep(race, k, column, i);
      column := column[driver.driver := driver.derivs[k]];
      i := i + 1;
    }
    assert race.driverOrder[..i] == race.driverOrder;
    r := Ok(column);
  }

  /** The inner loop of the derivation table: derivation `k` of every driver, then every constructor. */
  method DerivColumnOf(race: Race, k: string) returns (r: Result<map<string, real>, FactoryError>)
    requires race.WellFormed()
    ensures r.Ok? <==> HasDerivEverywhere(race, k)
    ensures r.Ok? ==> r.value == DerivColumn(race, k)
    ensures r.Err? ==> && r.error.MissingDerivation? && r.error.deriv == k
                       && ((r.error.name in race.drivers && k !in race.drivers[r.error.name].derivs)
                           || (r.error.name in race.constructors && k !in race.constructors[r.error.name].derivs))
  {
    var drivers := DriverDerivColumn(race, k);
    if drivers.Err? {
      return Err(drivers.error);
    }
    var column := drivers.value;
    assert race.driverOrder[..|race.driverOrder|] == race.driverOrder;
    assert race.constructorOrder[..0] == [];
    var j := 0;
    while j < |race.constructorOrder|
      invariant 0 <= j <= |race.constructorOrder|
      invariant ConstructorColumnSoFar(race, k, column, j)
    {
      var cons := race.constructors[race.constructorOrder[j]];
      if k !in cons.derivs {
        return Err(MissingDerivation(k, cons.constructorName));
      }
      ConstructorColumnStep(race, k, column, j);
      column := column[cons.constructorName := cons.derivs[k]];
      j := j + 1;
    }
    ConstructorColumnDone(race, k, column);
    r := Ok(column);
  }

  /** The outer loop of the derivation table: one column per derivation name, in any order. */
  method DerivTable(race: Race, names: set<string>) returns (r: Result<map<string, map<string, real>>, FactoryError>)
    requires race.WellFormed()
    ensures r.Ok? <==> forall k :: k in names ==> HasDerivEverywhere(race, k)
    ensures r.Ok? ==> && (forall k :: k in r.value <==> k in names)
                      && forall k :: k in r.value ==> HasDerivEverywhere(race, k) && r.value[k] == DerivColumn(race, k)
    ensures r.Err? ==> r.error.MissingDerivation? && r.error.deriv in names
                       && !HasDerivEverywhere(race, r.error.deriv)
  {
    var table: map<string, map<string, real>> := map[];
    var rest := names;
    while rest != {}
      invariant rest <= names
      invariant forall k :: k in table <==> k in names && k !in rest
      invariant forall k :: k in table ==> HasDerivEverywhere(race, k) && table[k] == DerivColumn(race, k)
      decreases rest
    {
      var k :| k in rest;
      var column := DerivColumnOf(race, k);
      if column.Err? {
        return Err(column.error);
      }
      table := table[k := column.value];
      rest := rest - {k};
    }
    r := Ok(table);
  }

  /**
   * `factory_strategy`: the team's rosters and the moves ceiling passed through, the
   * race's key orders as the available lists, the pairings of this race and the
   * previous one, the team's total budget as the cost ceiling, one price per racing
   * asset and the derivation table. The budget fails first when the team's counts
   * are wrong or one of its assets is unpriced; the table fails when some racing
   * asset lacks a derivation another one carries.
   */
  method FactoryStrategy(race: Race, racePrev: Race, team: Team, maxMoves: int)
    returns (r: Result<StrategyArgs, FactoryError>)
    requires race.WellFormed() && racePrev.WellFormed()
    ensures !(&& team.CheckAssetCounts().Pass?
              && DriversPriced(team.drivers, race, racePrev)
              && forall c :: c in team.constructors ==> c in race.constructors)
            ==> r.Err? && r.error.BudgetError?
    ensures r.Ok? <==> && team.CheckAssetCounts().Pass?
                       && DriversPriced(team.drivers, race, racePrev)
                       && (forall c :: c in team.constructors ==> c in race.constructors)
                       && forall k :: k in DerivNames(race) ==> HasDerivEverywhere(race, k)
    ensures r.Ok? ==> && r.value.teamDrivers == team.drivers
                      && r.value.teamConstructors == team.constructors
                      && r.value.availableDrivers == race.driverOrder
                      && r.value.availableConstructors == race.constructorOrder
                      && r.value.driverPairs == Pairings(race)
                      && r.value.driverPairsOrder == race.driverOrder
                      && r.value.prevDriverPairs == Pairings(racePrev)
                      && r.value.maxCost - team.unusedBudget
                         == DriversValue(team.drivers, race, racePrev) + ConstructorsValue(team.constructors, race)
                      && r.value.maxMoves == maxMoves
                      && r.value.prices == RacePrices(race)
                      && r.value.pricesOrder == PricesOrder(race)
                      && (forall k :: k in r.value.derivs <==> k in DerivNames(race))
                      && forall k :: k in r.value.derivs ==> r.value.derivs[k] == DerivColumn(race, k)
  {
    var budget := team.TotalBudget(race, racePrev);
    if budget.Err? {
      return Err(BudgetError(budget.error));
    }
    var driverPrices, driverNames := CollectDriverPrices(race);
    var prices, names := CollectConstructorPrices(race, driverPrices, driverNames);
    var derivs := DerivTable(race, names);
    if derivs.Err? {
      return Err(derivs.error);
    }
    r := Ok(StrategyArgs(team.drivers, team.constructors, race.driverOrder, race.constructorOrder,
                         Pairings(race), race.driverOrder, Pairings(racePrev), budget.value, maxMoves,
                         prices, PricesOrder(race), derivs.value));
  }

  /** The arguments the strategy constructor declares: the previous pairings and the derivations are dropped. */
  function ToInputs(args: StrategyArgs): StrategyInputs {
    StrategyInputs(args.teamDrivers, args.teamConstructors, args.availableDrivers, args.availableConstructors,
                   args.driverPairs, args.driverPairsOrder, args.maxCost, args.maxMoves, args.prices,
                   args.pricesOrder)
  }

  /**
   * Whatever the factory builds from a well-formed race passes every price and
   * pairing check of the strategy constructor; only the team-shape checks can
   * still reject it.
   */
  lemma FactoryOutputPassesChecks(race: Race, args: StrategyArgs)
    requires race.WellFormed()
    requires args.availableDrivers == race.driverOrder && args.availableConstructors == race.constructorOrder
    requires args.driverPairs == Pairings(race) && args.prices == RacePrices(race)
    requires args.driverPairsOrder == race.driverOrder && args.pricesOrder == PricesOrder(race)
    ensures ToInputs(args).WellFormed()
    ensures DataValid(args.availableDrivers, args.availableConstructors, args.prices)
    ensures PairingsValid(args.availableDrivers, args.availableConstructors, args.driverPairs)
    ensures InputsValid(ToInputs(args)) <==> TeamShapeValid(ToInputs(args))
  {
    RacePricesValid(race);
    PairingsOfRaceValid(race);
  }

  lemma RacePricesValid(race: Race)
    requires race.WellFormed()
    ensures DataValid(race.driverOrder, race.constructorOrder, RacePrices(race))
  {
  }

  lemma PairingsOfRaceValid(race: Race)
    requires race.WellFormed()
    ensures PairingsValid(race.driverOrder, race.constructorOrder, Pairings(race))
  {
  }

  /**
   * When no name is both a driver and a constructor, the factory's prices give each
   * driver and each constructor its own price.
   */
  lemma RacePricesOwnPrice(race: Race)
    requires forall n :: n in race.drivers ==> n !in race.constructors
    ensures forall d :: d in race.drivers ==> RacePrices(race)[d] == race.drivers[d].price
    ensures forall c :: c in race.constructors ==> RacePrices(race)[c] == race.constructors[c].price
  {
  }
}
