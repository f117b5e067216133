/**
 * Per-race asset records (drivers and constructors) and their lookup in a
 * price/points table: exactly one row per asset and race, otherwise an error.
 */
module Assets {
  import opened Wrappers

  datatype AssetType = DriverType | ConstructorType {
    /** The name of the table column holding the asset's name (`AssetType.value`). */
    function Column(): string {
      match this
      case DriverType => "Driver"
      case ConstructorType => "Constructor"
    }
  }

  /** A driver in one race: its name, the constructor it drives for, price, points and derived metrics. */
  datatype Driver = Driver(driver: string, constructorName: string, price: real, points: int, derivs: map<string, real>)

  /** A constructor in one race. */
  datatype Constructor = Constructor(constructorName: string, price: real, points: int, derivs: map<string, real>)

  /**
   * One row of a price/points table: the value of the asset-name column, the race,
   * the price and points, and every other numeric column by name.
   */
  datatype PpmRow = PpmRow(name: string, race: int, price: real, points: int, values: map<string, real>)

  /** A price/points table for one asset type: its column names and its rows. */
  datatype PpmTable = PpmTable(columns: seq<string>, rows: seq<PpmRow>)

  /** The columns that are not derived metrics. */
  const RESERVED_COLUMNS: set<string> := {"Season", "Driver", "Constructor", "Race", "Price", "Points"}

  /** The derived-metric columns of a table. */
  function DerivColumns(t: PpmTable): set<string> {
    set c | c in t.columns && c !in RESERVED_COLUMNS
  }

  /** Every row holds a value for every derived-metric column, as in any data frame. */
  predicate WellFormedTable(t: PpmTable) {
    forall i, c :: 0 <= i < |t.rows| && c in DerivColumns(t) ==> c in t.rows[i].values
  }

  /** The rows for the named asset in the given race, in table order. */
  function Matching(rows: seq<PpmRow>, name: string, race: int): (m: seq<PpmRow>)
    ensures |m| <= |rows|
    ensures forall r :: r in m <==> r in rows && r.name == name && r.race == race
  {
    if rows == [] then []
    else
      var rest := Matching(rows[1..], name, race);
      assert forall r :: r in rows <==> r == rows[0] || r in rows[1..];
      if rows[0].name == name && rows[0].race == race then [rows[0]] + rest else rest
  }

  /**
   * `Matching` keeps every copy of a matching row: a row for the asset and race
   * occurs as often as in the table, any other row not at all.
   */
  lemma {:induction false} MatchingMultiset(rows: seq<PpmRow>, name: string, race: int)
    ensures forall r :: multiset(Matching(rows, name, race))[r]
                        == if r.name == name && r.race == race then multiset(rows)[r] else 0
  {
    if rows != [] {
      MatchingMultiset(rows[1..], name, race);
      assert rows == [rows[0]] + rows[1..];
    }
  }

  /** Exactly one row describes the asset in that race. */
  predicate UniqueRow(t: PpmTable, name: string, race: int) {
    |Matching(t.rows, name, race)| == 1
  }

  /** The derived metrics of a row: every derived-metric column with that row's value. */
  function DerivsOf(t: PpmTable, row: PpmRow): (d: map<string, real>)
    requires forall c :: c in DerivColumns(t) ==> c in row.values
    ensures d.Keys == DerivColumns(t)
  {
    map c | c in DerivColumns(t) :: row.values[c]
  }

  lemma UniqueRowIsRow(t: PpmTable, name: string, race: int)
    requires UniqueRow(t, name, race)
    ensures Matching(t.rows, name, race)[0] in t.rows
  {
    assert Matching(t.rows, name, race)[0] in Matching(t.rows, name, race);
  }

  /** The Driver record the single row for `driver` in `race` describes. */
  function DriverRecord(t: PpmTable, driver: string, constructorName: string, race: int): (d: Driver)
    requires WellFormedTable(t) && UniqueRow(t, driver, race)
    ensures d.driver == driver && d.constructorName == constructorName
  {
    UniqueRowIsRow(t, driver, race);
    var row := Matching(t.rows, driver, race)[0];
    var k :| 0 <= k < |t.rows| && t.rows[k] == row;
    Driver(driver, constructorName, row.price, row.points, DerivsOf(t, row))
  }

  /** The Constructor record the single row for `constructorName` in `race` describes. */
  function ConstructorRecord(t: PpmTable, constructorName: string, race: int): (c: Constructor)
    requires WellFormedTable(t) && UniqueRow(t, constructorName, race)
    ensures c.constructorName == constructorName
  {
    UniqueRowIsRow(t, constructorName, race);
    var row := Matching(t.rows, constructorName, race)[0];
    var k :| 0 <= k < |t.rows| && t.rows[k] == row;
    Constructor(constructorName, row.price, row.points, DerivsOf(t, row))
  }

  datatype AssetError =
    | NotFound(assetType: AssetType, name: string, race: int)
    | MultipleEntries(assetType: AssetType, name: string, race: int)

  /** The error a lookup without exactly one row reports: no row is "not found", several are "multiple entries". */
  function LookupError(t: PpmTable, assetType: AssetType, name: string, race: int): AssetError {
    if |Matching(t.rows, name, race)| == 0 then NotFound(assetType, name, race)
    else MultipleEntries(assetType, name, race)
  }

  /** Two copies of one row are "multiple entries" for its asset and race, even though they agree. */
  lemma RepeatedRowIsMultipleEntries(t: PpmTable, assetType: AssetType, row: PpmRow)
    requires multiset(t.rows)[row] >= 2
    ensures !UniqueRow(t, row.name, row.race)
    ensures LookupError(t, assetType, row.name, row.race) == MultipleEntries(assetType, row.name, row.race)
  {
    MatchingMultiset(t.rows, row.name, row.race);
    var m := Matching(t.rows, row.name, row.race);
    assert multiset(m)[row] >= 2;
    assert |m| >= 2 by {
      var rest := multiset(m) - multiset{row, row};
      assert multiset(m) == rest + multiset{row, row};
    }
  }

  /** What `factory_asset` returns: the derived metrics, the price and the points. */
  datatype AssetData = AssetData(derivs: map<string, real>, price: real, points: int)

  /**
   * `factory_asset`: look up the single row for `name` in `race`; no row and several
   * rows are errors; the derived metrics are every non-reserved column of that row.
   */
  method FactoryAsset(t: PpmTable, assetType: AssetType, name: string, race: int)
    returns (r: Result<AssetData, AssetError>)
    requires WellFormedTable(t)
    ensures var m := Matching(t.rows, name, race);
            && (r == Err(NotFound(assetType, name, race)) <==> |m| == 0)
            && (r == Err(MultipleEntries(assetType, name, race)) <==> |m| > 1)
            && (r.Ok? <==> |m| == 1)
    ensures r.Ok? ==> var row := Matching(t.rows, name, race)[0];
            && r.value.price == row.price
            && r.value.points == row.points
            && r.value.derivs.Keys == DerivColumns(t)
            && forall c :: c in r.value.derivs ==> r.value.derivs[c] == row.values[c]
  {
    var m := Matching(t.rows, name, race);
    if |m| == 0 {
      return Err(NotFound(assetType, name, race));
    }
    if |m| > 1 {
      return Err(MultipleEntries(assetType, name, race));
    }
    var row := m[0];
    assert row in t.rows;
    var k :| 0 <= k < |t.rows| && t.rows[k] == row;
    var derivs: map<string, real> := map[];
    var i := 0;
    while i < |t.columns|
      invariant 0 <= i <= |t.columns|
      invariant derivs.Keys == set c | c in t.columns[..i] && c !in RESERVED_COLUMNS
      invariant forall c :: c in derivs ==> c in row.values && derivs[c] == row.values[c]
    {
      var c := t.columns[i];
      if c !in RESERVED_COLUMNS {
        assert c in DerivColumns(t);
        derivs := derivs[c := row.values[c]];
      }
      assert t.columns[..i + 1] == t.columns[..i] + [c];
      i := i + 1;
    }
    assert t.columns[..i] == t.columns;
    r := Ok(AssetData(derivs, row.price, row.points));
  }

  /** `factory_driver`: a Driver with the given name and constructor and the looked-up data. */
  method FactoryDriver(t: PpmTable, driver: string, constructorName: string, race: int)
    returns (r: Result<Driver, AssetError>)
    requires WellFormedTable(t)
    ensures r.Ok? <==> UniqueRow(t, driver, race)
    ensures r.Err? ==> r.error.name == driver && r.error.race == race && r.error.assetType == DriverType
    ensures r.Err? ==> r.error == LookupError(t, DriverType, driver, race)
    ensures r.Ok? ==> r.value == DriverRecord(t, driver, constructorName, race)
  {
    var data := FactoryAsset(t, DriverType, driver, race);
    if data.Err? {
      return Err(data.error);
    }
    r := Ok(Driver(driver, constructorName, data.value.price, data.value.points, data.value.derivs));
  }

  /** `factory_constructor`: a Constructor with the given name and the looked-up data. */
  method FactoryConstructor(t: PpmTable, constructorName: string, race: int)
    returns (r: Result<Constructor, AssetError>)
    requires WellFormedTable(t)
    ensures r.Ok? <==> UniqueRow(t, constructorName, race)
    ensures r.Err? ==> r.error.name == constructorName && r.error.race == race && r.error.assetType == ConstructorType
    ensures r.Err? ==> r.error == LookupError(t, ConstructorType, constructorName, race)
    ensures r.Ok? ==> r.value == ConstructorRecord(t, constructorName, race)
  {
    var data := FactoryAsset(t, ConstructorType, constructorName, race);
    if data.Err? {
      return Err(data.error);
    }
    r := Ok(Constructor(constructorName, data.value.price, data.value.points, data.value.derivs));
  }
}
