/**
 * One race's line-up (drivers and constructors with their data) and a season of
 * races, built from the price/points tables and the driver-to-constructor pairings.
 */
module Seasons {
  import opened Wrappers
  import opened Text
  import opened Assets

  /**
   * A race: its number, the drivers and constructors by name, and the order in
   * which each dictionary received its keys (the order the program iterates them in).
   */
  datatype Race = Race(
    race: int,
    drivers: map<string, Driver>,
    constructors: map<string, Constructor>,
    driverOrder: seq<string>,
    constructorOrder: seq<string>)
  {
    /**
     * The key orders list each key once; every record is filed under its own name;
     * every driver's constructor races too.
     */
    ghost predicate WellFormed() {
      && Distinct(driverOrder) && Distinct(constructorOrder)
      && (forall d :: d in drivers <==> d in driverOrder)
      && (forall c :: c in constructors <==> c in constructorOrder)
      && (forall d :: d in drivers ==> drivers[d].driver == d && drivers[d].constructorName in constructors)
      && (forall c :: c in constructors ==> constructors[c].constructorName == c)
    }
  }

  /** A season: its year and its races by number. */
  datatype Season = Season(season: int, races: map<int, Race>)

  /** One row of the pairings table: in this race, this driver drives for this constructor. */
  datatype PairingRow = PairingRow(race: int, driver: string, constructorName: string)

  /** The pairing rows of one race, in table order. */
  function RaceRows(pairings: seq<PairingRow>, race: int): (rows: seq<PairingRow>)
    ensures forall p :: p in rows <==> p in pairings && p.race == race
  {
    if pairings == [] then []
    else
      var rest := RaceRows(pairings[1..], race);
      assert forall p :: p in pairings <==> p == pairings[0] || p in pairings[1..];
      if pairings[0].race == race then [pairings[0]] + rest else rest
  }

  /** The driver column of some pairing rows. */
  function DriverNames(rows: seq<PairingRow>): (names: seq<string>)
    ensures |names| == |rows| && forall i :: 0 <= i < |rows| ==> names[i] == rows[i].driver
  {
    seq(|rows|, i requires 0 <= i < |rows| => rows[i].driver)
  }

  /** The constructor column of some pairing rows. */
  function ConstructorNames(rows: seq<PairingRow>): (names: seq<string>)
    ensures |names| == |rows| && forall i :: 0 <= i < |rows| ==> names[i] == rows[i].constructorName
  {
    seq(|rows|, i requires 0 <= i < |rows| => rows[i].constructorName)
  }

  /** The race column of some pairing rows. */
  function RaceNumbers(rows: seq<PairingRow>): (numbers: seq<int>)
    ensures |numbers| == |rows| && forall i :: 0 <= i < |rows| ==> numbers[i] == rows[i].race
  {
    seq(|rows|, i requires 0 <= i < |rows| => rows[i].race)
  }

  /**
   * The constructor of the last row naming driver `d`: a later row for the same
   * driver overwrites an earlier one in the drivers dictionary.
   */
  function LastConstructor(rows: seq<PairingRow>, d: string): (c: string)
    requires d in DriverNames(rows)
    ensures exists i :: 0 <= i < |rows| && rows[i].driver == d && rows[i].constructorName == c
                        && forall j :: i < j < |rows| ==> rows[j].driver != d
  {
    var last := rows[|rows| - 1];
    if last.driver == d then last.constructorName
    else
      var prefix := rows[..|rows| - 1];
      assert d in DriverNames(prefix) by {
        var i :| 0 <= i < |rows| && DriverNames(rows)[i] == d;
        assert DriverNames(prefix)[i] == d;
      }
      var c := LastConstructor(prefix, d);
      ghost var i :| 0 <= i < |prefix| && prefix[i].driver == d && prefix[i].constructorName == c
                     && forall j :: i < j < |prefix| ==> prefix[j].driver != d;
      assert rows[i].driver == d && rows[i].constructorName == c;
      assert forall j :: i < j < |rows| ==> rows[j].driver != d by {
        forall j | i < j < |rows| ensures rows[j].driver != d {
          if j < |prefix| { assert rows[j] == prefix[j]; }
        }
      }
      c
  }

  /** Every driver and every constructor of the rows has exactly one row in its table for the race. */
  predicate LookupsSucceed(dt: PpmTable, ct: PpmTable, rows: seq<PairingRow>, race: int) {
    && (forall d :: d in DriverNames(rows) ==> UniqueRow(dt, d, race))
    && (forall c :: c in ConstructorNames(rows) ==> UniqueRow(ct, c, race))
  }

  /**
   * The race `factory_race` builds when every lookup succeeds: one driver per named
   * driver, paired with its last constructor, and one constructor per named
   * constructor, each keyed in order of first appearance.
   */
  function BuildRace(dt: PpmTable, ct: PpmTable, rows: seq<PairingRow>, race: int): (r: Race)
    requires WellFormedTable(dt) && WellFormedTable(ct)
    requires LookupsSucceed(dt, ct, rows, race)
    ensures r.race == race
    ensures r.drivers.Keys == set d | d in DriverNames(rows)
    ensures r.constructors.Keys == set c | c in ConstructorNames(rows)
    ensures forall d :: d in r.drivers ==> r.drivers[d] == DriverRecord(dt, d, LastConstructor(rows, d), race)
    ensures forall c :: c in r.constructors ==> r.constructors[c] == ConstructorRecord(ct, c, race)
  {
    var dnames := Dedup(DriverNames(rows));
    var cnames := Dedup(ConstructorNames(rows));
    Race(race,
         map d | d in dnames :: DriverRecord(dt, d, LastConstructor(rows, d), race),
         map c | c in cnames :: ConstructorRecord(ct, c, race),
         dnames, cnames)
  }

  /** A built race is well formed: in particular every driver's constructor is in it. */
  lemma BuildRaceWellFormed(dt: PpmTable, ct: PpmTable, rows: seq<PairingRow>, race: int)
    requires WellFormedTable(dt) && WellFormedTable(ct)
    requires LookupsSucceed(dt, ct, rows, race)
    ensures BuildRace(dt, ct, rows, race).WellFormed()
  {
    var r := BuildRace(dt, ct, rows, race);
    forall d | d in r.drivers
      ensures r.drivers[d].constructorName in r.constructors
    {
      var c := LastConstructor(rows, d);
      var i :| 0 <= i < |rows| && rows[i].driver == d && rows[i].constructorName == c
               && forall j :: i < j < |rows| ==> rows[j].driver != d;
      assert ConstructorNames(rows)[i] == c;
    }
  }

  /** The driver keeps the constructor of the last pairing row naming it, as a dict overwrite does. */
  lemma BuildRaceLastPairingWins(dt: PpmTable, ct: PpmTable, rows: seq<PairingRow>, race: int, i: nat)
    requires WellFormedTable(dt) && WellFormedTable(ct)
    requires LookupsSucceed(dt, ct, rows, race)
    requires i < |rows| && forall j :: i < j < |rows| ==> rows[j].driver != rows[i].driver
    ensures rows[i].driver in BuildRace(dt, ct, rows, race).drivers
    ensures BuildRace(dt, ct, rows, race).drivers[rows[i].driver].constructorName == rows[i].constructorName
  {
    var d := rows[i].driver;
    assert DriverNames(rows)[i] == d;
    var c := LastConstructor(rows, d);
    var k :| 0 <= k < |rows| && rows[k].driver == d && rows[k].constructorName == c
             && forall j :: k < j < |rows| ==> rows[j].driver != d;
    if k < i {
      assert false;
    } else if i < k {
      assert false;
    }
  }

  lemma DriverNamesSnoc(seen: seq<PairingRow>, row: PairingRow)
    ensures DriverNames(seen + [row]) == DriverNames(seen) + [row.driver]
  {
  }

  lemma LastConstructorSnoc(seen: seq<PairingRow>, row: PairingRow, d: string)
    requires d in DriverNames(seen + [row])
    ensures d == row.driver ==> LastConstructor(seen + [row], d) == row.constructorName
    ensures d != row.driver ==>
              d in DriverNames(seen) && LastConstructor(seen + [row], d) == LastConstructor(seen, d)
  {
    assert (seen + [row])[..|seen|] == seen;
    DriverNamesSnoc(seen, row);
  }

  /**
   * `e` is the error of the first of `names` whose lookup fails: it names a name at
   * some position, every name before that position has exactly one row, and the
   * error says whether that name has no row or several.
   */
  ghost predicate FirstFailedLookup(t: PpmTable, assetType: AssetType, names: seq<string>, race: int, e: AssetError) {
    && e == LookupError(t, assetType, e.name, race) && !UniqueRow(t, e.name, race)
    && exists p :: 0 <= p < |names| && names[p] == e.name && forall q :: 0 <= q < p ==> UniqueRow(t, names[q], race)
  }

  /**
   * `e` is the error `factory_race` raises for the pairing rows of a race: the first
   * driver whose lookup fails, or, when every driver is found, the first failing
   * constructor in order of first appearance.
   */
  ghost predicate FirstRaceFailure(dt: PpmTable, ct: PpmTable, rows: seq<PairingRow>, race: int, e: AssetError) {
    || FirstFailedLookup(dt, DriverType, DriverNames(rows), race, e)
    || (&& (forall d :: d in DriverNames(rows) ==> UniqueRow(dt, d, race))
        && FirstFailedLookup(ct, ConstructorType, Dedup(ConstructorNames(rows)), race, e))
  }

  /** What the drivers loop of `factory_race` has built from the pairing rows `seen` so far. */
  ghost predicate DriversSoFar(dt: PpmTable, seen: seq<PairingRow>, race: int,
                               drivers: map<string, Driver>, order: seq<string>)
    requires WellFormedTable(dt)
  {
    && (forall d :: d in DriverNames(seen) ==> UniqueRow(dt, d, race))
    && order == Dedup(DriverNames(seen))
    && (forall d :: d in drivers <==> d in order)
    && DriverRecords(dt, seen, race, drivers)
  }

  /** Every recorded driver is named by the rows and holds the record of its last pairing. */
  ghost predicate DriverRecords(dt: PpmTable, rows: seq<PairingRow>, race: int, drivers: map<string, Driver>)
    requires WellFormedTable(dt)
    requires forall d :: d in DriverNames(rows) ==> UniqueRow(dt, d, race)
  {
    forall d :: d in drivers ==>
      d in DriverNames(rows) && drivers[d] == DriverRecord(dt, d, LastConstructor(rows, d), race)
  }

  /** One step of the drivers loop: record the driver of `row` under its name. */
  lemma DriversStep(dt: PpmTable, seen: seq<PairingRow>, row: PairingRow, race: int,
                    drivers: map<string, Driver>, order: seq<string>,
                    drivers': map<string, Driver>, order': seq<string>)
    requires WellFormedTable(dt)
    requires DriversSoFar(dt, seen, race, drivers, order)
    requires UniqueRow(dt, row.driver, race)
    requires drivers' == drivers[row.driver := DriverRecord(dt, row.driver, row.constructorName, race)]
    requires order' == if row.driver in order then order else order + [row.driver]
    ensures DriversSoFar(dt, seen + [row], race, drivers', order')
  {
    DriverNamesSnoc(seen, row);
    OrderStep(DriverNames(seen), row.driver, order, order', drivers, drivers');
    DriverRecordsStep(dt, seen, row, race, drivers);
  }

  /** Keying a new name keeps the map's keys those of the order of first appearance. */
  lemma OrderStep<V>(prev: seq<string>, x: string, order: seq<string>, order': seq<string>,
                     m: map<string, V>, m': map<string, V>)
    requires order == Dedup(prev) && forall d :: d in m <==> d in order
    requires order' == (if x in order then order else order + [x])
    requires m'.Keys == m.Keys + {x}
    ensures order' == Dedup(prev + [x])
    ensures forall d :: d in m' <==> d in order'
  {
    DedupSnoc(prev, x);
  }

  /** The records part of `DriversStep`: the new record is the last one for its driver. */
  lemma DriverRecordsStep(dt: PpmTable, seen: seq<PairingRow>, row: PairingRow, race: int,
                          drivers: map<string, Driver>)
    requires WellFormedTable(dt)
    requires forall d :: d in DriverNames(seen) ==> UniqueRow(dt, d, race)
    requires UniqueRow(dt, row.driver, race)
    requires DriverRecords(dt, seen, race, drivers)
    ensures forall d :: d in DriverNames(seen + [row]) ==> UniqueRow(dt, d, race)
    ensures DriverRecords(dt, seen + [row], race,
                          drivers[row.driver := DriverRecord(dt, row.driver, row.constructorName, race)])
  {
    DriverNamesSnoc(seen, row);
    var next := drivers[row.driver := DriverRecord(dt, row.driver, row.constructorName, race)];
    forall d | d in next
      ensures d in DriverNames(seen + [row])
      ensures next[d] == DriverRecord(dt, d, LastConstructor(seen + [row], d), race)
    {
      LastConstructorSnoc(seen, row, d);
    }
  }

  /** The body of the drivers loop: look the row's driver up and record it under its name. */
  method FactoryDriversStep(dt: PpmTable, ghost seen: seq<PairingRow>, row: PairingRow, race: int,
                            drivers: map<string, Driver>, order: seq<string>)
    returns (r: Result<(map<string, Driver>, seq<string>), AssetError>)
    requires WellFormedTable(dt) && DriversSoFar(dt, seen, race, drivers, order)
    ensures r.Ok? <==> UniqueRow(dt, row.driver, race)
    ensures r.Err? ==> r.error.race == race && r.error.assetType == DriverType && r.error.name == row.driver
    ensures r.Err? ==> r.error == LookupError(dt, DriverType, row.driver, race)
    ensures r.Ok? ==> DriversSoFar(dt, seen + [row], race, r.value.0, r.value.1)
  {
    var made := FactoryDriver(dt, row.driver, row.constructorName, race);
    if made.Err? {
      return Err(made.error);
    }
    var drivers' := drivers[row.driver := made.value];
    var order' := if row.driver in order then order else order + [row.driver];
    DriversStep(dt, seen, row, race, drivers, order, drivers', order');
    r := Ok((drivers', order'));
  }

  /**
   * The drivers loop of `factory_race`: a driver per pairing row, a later row for
   * the same driver replacing the earlier record; the first failed lookup is the error.
   */
  method FactoryDrivers(dt: PpmTable, rows: seq<PairingRow>, race: int)
    returns (r: Result<(map<string, Driver>, seq<string>), AssetError>)
    requires WellFormedTable(dt)
    ensures r.Ok? <==> forall d :: d in DriverNames(rows) ==> UniqueRow(dt, d, race)
    ensures r.Ok? ==> r.value.1 == Dedup(DriverNames(rows))
    ensures r.Ok? ==> r.value.0.Keys == set d | d in DriverNames(rows)
    ensures r.Ok? ==> forall d :: d in r.value.0 ==>
                        r.value.0[d] == DriverRecord(dt, d, LastConstructor(rows, d), race)
    ensures r.Err? ==> && r.error.race == race && r.error.assetType == DriverType
                       && r.error.name in DriverNames(rows) && !UniqueRow(dt, r.error.name, race)
    ensures r.Err? ==> FirstFailedLookup(dt, DriverType, DriverNames(rows), race, r.error)
  {
    var drivers: map<string, Driver> := map[];
    var order: seq<string> := [];
    ghost var seen: seq<PairingRow> := [];
    var i := 0;
    while i < |rows|
      invariant 0 <= i <= |rows| && seen == rows[..i]
      invariant DriversSoFar(dt, seen, race, drivers, order)
      invariant forall q :: 0 <= q < i ==> UniqueRow(dt, DriverNames(rows)[q], race)
    {
      assert DriverNames(rows)[i] == rows[i].driver;
      var next := FactoryDriversStep(dt, seen, rows[i], race, drivers, order);
      if next.Err? {
        return Err(next.error);
      }
      drivers, order, seen := next.value.0, next.value.1, seen + [rows[i]];
      i := i + 1;
    }
    assert seen == rows;
    DriversDone(dt, rows, race, drivers, order);
    r := Ok((drivers, order));
  }

  /** When the drivers loop has seen every row, its map's keys are the named drivers. */
  lemma DriversDone(dt: PpmTable, rows: seq<PairingRow>, race: int, drivers: map<string, Driver>, order: seq<string>)
    requires WellFormedTable(dt)
    requires DriversSoFar(dt, rows, race, drivers, order)
    ensures forall d :: d in DriverNames(rows) ==> UniqueRow(dt, d, race)
    ensures order == Dedup(DriverNames(rows))
    ensures drivers.Keys == set d | d in DriverNames(rows)
    ensures forall d :: d in drivers ==> drivers[d] == DriverRecord(dt, d, LastConstructor(rows, d), race)
  {
    assert forall d :: d in drivers <==> d in DriverNames(rows);
  }

  /** The constructors loop of `factory_race`: a constructor per distinct name, in order. */
  method FactoryConstructors(ct: PpmTable, names: seq<string>, race: int)
    returns (r: Result<map<string, Constructor>, AssetError>)
    requires WellFormedTable(ct)
    ensures r.Ok? <==> forall c :: c in names ==> UniqueRow(ct, c, race)
    ensures r.Ok? ==> r.value.Keys == set c | c in names
    ensures r.Ok? ==> forall c :: c in r.value ==> r.value[c] == ConstructorRecord(ct, c, race)
    ensures r.Err? ==> && r.error.race == race && r.error.assetType == ConstructorType
                       && r.error.name in names && !UniqueRow(ct, r.error.name, race)
    ensures r.Err? ==> FirstFailedLookup(ct, ConstructorType, names, race, r.error)
  {
    var constructors: map<string, Constructor> := map[];
    var j := 0;
    while j < |names|
      invariant 0 <= j <= |names|
      invariant forall q :: 0 <= q < j ==> UniqueRow(ct, names[q], race)
      invariant forall c :: c in names[..j] ==> UniqueRow(ct, c, race)
      invariant constructors.Keys == set c | c in names[..j]
      invariant forall c :: c in constructors ==> constructors[c] == ConstructorRecord(ct, c, race)
    {
      var made := FactoryConstructor(ct, names[j], race);
      if made.Err? {
        return Err(made.error);
      }
      assert names[..j + 1] == names[..j] + [names[j]];
      constructors := constructors[names[j] := made.value];
      j := j + 1;
    }
    assert names[..j] == names;
    r := Ok(constructors);
  }

  /**
   * `factory_race`: the drivers of the race's pairing rows, then its distinct
   * constructors; the first failed lookup is the error.
   */
  method FactoryRace(dt: PpmTable, ct: PpmTable, pairings: seq<PairingRow>, race: int)
    returns (r: Result<Race, AssetError>)
    requires WellFormedTable(dt) && WellFormedTable(ct)
    ensures r.Ok? <==> LookupsSucceed(dt, ct, RaceRows(pairings, race), race)
    ensures r.Ok? ==> r.value == BuildRace(dt, ct, RaceRows(pairings, race), race)
    ensures r.Err? ==> r.error.race == race
    ensures r.Err? && r.error.assetType == DriverType ==>
              r.error.name in DriverNames(RaceRows(pairings, race)) && !UniqueRow(dt, r.error.name, race)
    ensures r.Err? && r.error.assetType == ConstructorType ==>
              && r.error.name in ConstructorNames(RaceRows(pairings, race)) && !UniqueRow(ct, r.error.name, race)
              && forall d :: d in DriverNames(RaceRows(pairings, race)) ==> UniqueRow(dt, d, race)
    ensures r.Err? ==> FirstRaceFailure(dt, ct, RaceRows(pairings, race), race, r.error)
  {
    var rows := RaceRows(pairings, race);
    var drivers := FactoryDrivers(dt, rows, race);
    if drivers.Err? {
      return Err(drivers.error);
    }
    var cnames := Dedup(ConstructorNames(rows));
    var constructors := FactoryConstructors(ct, cnames, race);
    if constructors.Err? {
      return Err(constructors.error);
    }
    assert LookupsSucceed(dt, ct, rows, race);
    BuiltMaps(dt, ct, rows, race, drivers.value.0, constructors.value);
    r := Ok(Race(race, drivers.value.0, constructors.value, drivers.value.1, cnames));
  }

  /** Maps with the keys and records `factory_race` produces are those of the built race. */
  lemma BuiltMaps(dt: PpmTable, ct: PpmTable, rows: seq<PairingRow>, race: int,
                  drivers: map<string, Driver>, constructors: map<string, Constructor>)
    requires WellFormedTable(dt) && WellFormedTable(ct) && LookupsSucceed(dt, ct, rows, race)
    requires drivers.Keys == set d | d in DriverNames(rows)
    requires forall d :: d in drivers ==> drivers[d] == DriverRecord(dt, d, LastConstructor(rows, d), race)
    requires constructors.Keys == set c | c in Dedup(ConstructorNames(rows))
    requires forall c :: c in constructors ==> constructors[c] == ConstructorRecord(ct, c, race)
    ensures drivers == BuildRace(dt, ct, rows, race).drivers
    ensures constructors == BuildRace(dt, ct, rows, race).constructors
  {
    var built := BuildRace(dt, ct, rows, race);
    SameMaps(drivers, built.drivers);
    assert constructors.Keys == built.constructors.Keys by {
      forall c ensures c in constructors <==> c in built.constructors {
        assert c in Dedup(ConstructorNames(rows)) <==> c in ConstructorNames(rows);
      }
    }
    SameMaps(constructors, built.constructors);
  }

  /** Maps with the same keys and the same value at each key are equal. */
  lemma SameMaps<K, V>(m: map<K, V>, n: map<K, V>)
    requires m.Keys == n.Keys && forall k :: k in m ==> m[k] == n[k]
    ensures m == n
  {
  }

  /** Every race number of the pairings has every lookup succeed. */
  predicate SeasonLookupsSucceed(dt: PpmTable, ct: PpmTable, pairings: seq<PairingRow>) {
    forall n :: n in RaceNumbers(pairings) ==> LookupsSucceed(dt, ct, RaceRows(pairings, n), n)
  }

  /**
   * `e` is the error `factory_season` raises: it belongs to the first race number,
   * in order of first appearance, whose lookups fail, and it is that race's own
   * first failure.
   */
  ghost predicate FirstSeasonFailure(dt: PpmTable, ct: PpmTable, pairings: seq<PairingRow>, e: AssetError) {
    var numbers := Dedup(RaceNumbers(pairings));
    && FirstRaceFailure(dt, ct, RaceRows(pairings, e.race), e.race, e)
    && exists p :: 0 <= p < |numbers| && numbers[p] == e.race
                   && forall q :: 0 <= q < p ==> LookupsSucceed(dt, ct, RaceRows(pairings, numbers[q]), numbers[q])
  }

  /** The first failure of race `numbers[k]`, after every earlier race succeeded, is the season's. */
  lemma SeasonFailureAt(dt: PpmTable, ct: PpmTable, pairings: seq<PairingRow>, k: nat, e: AssetError)
    requires k < |Dedup(RaceNumbers(pairings))| && e.race == Dedup(RaceNumbers(pairings))[k]
    requires FirstRaceFailure(dt, ct, RaceRows(pairings, e.race), e.race, e)
    requires forall q :: 0 <= q < k ==> LookupsSucceed(dt, ct, RaceRows(pairings, Dedup(RaceNumbers(pairings))[q]),
                                                       Dedup(RaceNumbers(pairings))[q])
    ensures FirstSeasonFailure(dt, ct, pairings, e)
  {
  }

  /**
   * `factory_season`: one race per distinct race number of the pairings, built by
   * `factory_race`; the first race whose lookup fails is the error.
   */
  method FactorySeason(dt: PpmTable, ct: PpmTable, pairings: seq<PairingRow>, season: int)
    returns (r: Result<Season, AssetError>)
    requires WellFormedTable(dt) && WellFormedTable(ct)
    ensures r.Ok? <==> SeasonLookupsSucceed(dt, ct, pairings)
    ensures r.Ok? ==> && r.value.season == season
                      && r.value.races.Keys == set n | n in RaceNumbers(pairings)
                      && forall n :: n in r.value.races ==>
                           r.value.races[n] == BuildRace(dt, ct, RaceRows(pairings, n), n)
    ensures r.Err? ==> r.error.race in RaceNumbers(pairings)
                       && !LookupsSucceed(dt, ct, RaceRows(pairings, r.error.race), r.error.race)
    ensures r.Err? ==> FirstSeasonFailure(dt, ct, pairings, r.error)
  {
    var numbers := Dedup(RaceNumbers(pairings));
    var races: map<int, Race> := map[];
    var k := 0;
    while k < |numbers|
      invariant 0 <= k <= |numbers|
      invariant RacesSoFar(dt, ct, pairings, numbers, k, races)
    {
      var made := FactoryRace(dt, ct, pairings, numbers[k]);
      if made.Err? {
        SeasonFailureAt(dt, ct, pairings, k, made.error);
        return Err(made.error);
      }
      RacesStep(dt, ct, pairings, numbers, k, races, made.value);
      races := races[numbers[k] := made.value];
      k := k + 1;
    }
    RacesDone(dt, ct, pairings, races);
    r := Ok(Season(season, races));
  }

  /** What the loop of `factory_season` has built from the first `k` race numbers. */
  ghost predicate RacesSoFar(dt: PpmTable, ct: PpmTable, pairings: seq<PairingRow>, numbers: seq<int>, k: nat,
                             races: map<int, Race>)
    requires WellFormedTable(dt) && WellFormedTable(ct)
  {
    && k <= |numbers|
    && (forall q :: 0 <= q < k ==> LookupsSucceed(dt, ct, RaceRows(pairings, numbers[q]), numbers[q]))
    && (forall n :: n in races <==> n in numbers[..k])
    && forall n :: n in races ==>
         LookupsSucceed(dt, ct, RaceRows(pairings, n), n) && races[n] == BuildRace(dt, ct, RaceRows(pairings, n), n)
  }

  lemma RacesStep(dt: PpmTable, ct: PpmTable, pairings: seq<PairingRow>, numbers: seq<int>, k: nat,
                  races: map<int, Race>, race: Race)
    requires WellFormedTable(dt) && WellFormedTable(ct)
    requires RacesSoFar(dt, ct, pairings, numbers, k, races) && k < |numbers|
    requires LookupsSucceed(dt, ct, RaceRows(pairings, numbers[k]), numbers[k])
    requires race == BuildRace(dt, ct, RaceRows(pairings, numbers[k]), numbers[k])
    ensures RacesSoFar(dt, ct, pairings, numbers, k + 1, races[numbers[k] := race])
  {
    var n := numbers[k];
    var races' := races[n := race];
    KeysStep(numbers, k, races, race, races');
    forall m | m in races'
      ensures LookupsSucceed(dt, ct, RaceRows(pairings, m), m)
      ensures races'[m] == BuildRace(dt, ct, RaceRows(pairings, m), m)
    {
      if m != n {
        assert races'[m] == races[m];
      }
    }
  }

  /** Keying the next number of a sequence keeps a map's keys its prefix. */
  lemma KeysStep<V>(numbers: seq<int>, k: nat, m: map<int, V>, v: V, m': map<int, V>)
    requires k < |numbers| && forall n :: n in m <==> n in numbers[..k]
    requires m' == m[numbers[k] := v]
    ensures forall n :: n in m' <==> n in numbers[..k + 1]
  {
    assert numbers[..k + 1] == numbers[..k] + [numbers[k]];
  }

  lemma RacesDone(dt: PpmTable, ct: PpmTable, pairings: seq<PairingRow>, races: map<int, Race>)
    requires WellFormedTable(dt) && WellFormedTable(ct)
    requires RacesSoFar(dt, ct, pairings, Dedup(RaceNumbers(pairings)), |Dedup(RaceNumbers(pairings))|, races)
    ensures SeasonLookupsSucceed(dt, ct, pairings)
    ensures races.Keys == set n | n in RaceNumbers(pairings)
    ensures forall n :: n in races ==> races[n] == BuildRace(dt, ct, RaceRows(pairings, n), n)
  {
    var numbers := Dedup(RaceNumbers(pairings));
    assert numbers[..|numbers|] == numbers;
    assert forall n :: n in races <==> n in RaceNumbers(pairings);
  }

}
