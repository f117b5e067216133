/**
 * A fantasy team: two bounded, duplicate-free rosters (drivers and constructors),
 * the unused budget, the points total and the DRS-boost driver; guarded roster
 * updates, valuation against a race's prices and points accrual.
 */
module Teams {
  import opened Wrappers
  import opened Text
  import opened Assets
  import opened Seasons

  datatype TeamError =
    | AlreadyPresent(assetType: AssetType, name: string)
    | LimitReached(assetType: AssetType, name: string)
    | NotPresent(assetType: AssetType, name: string)
    | IncorrectCount(assetType: AssetType, actual: nat, expected: nat)
    | UnknownDriver(name: string)            // a driver name missing from the race (KeyError)
    | UnknownConstructor(name: string)       // a constructor name missing from the race (KeyError)
    | IncorrectDrivers                       // a team row names the wrong number of drivers
    | IncorrectConstructors                  // a team row names the wrong number of constructors

  /** The other asset type. */
  function OtherType(t: AssetType): AssetType {
    match t
    case DriverType => ConstructorType
    case ConstructorType => DriverType
  }

  /** The position of the first occurrence of `x` in `s`. */
  function IndexOf(s: seq<string>, x: string): (i: nat)
    requires x in s
    ensures i < |s| && s[i] == x && x !in s[..i]
  {
    if s[0] == x then 0
    else
      var i := IndexOf(s[1..], x);
      assert s[..i + 1] == [s[0]] + s[1..][..i];
      i + 1
  }

  /** `list.remove`: the first occurrence of `x` taken out of `s`, the rest in order. */
  function RemoveFirst(s: seq<string>, x: string): (r: seq<string>)
    requires x in s
    ensures |r| == |s| - 1
    ensures multiset(r) == multiset(s) - multiset{x}
  {
    var i := IndexOf(s, x);
    assert s == s[..i] + [x] + s[i + 1..];
    s[..i] + s[i + 1..]
  }

  /** Adding a new name and then removing it gives back the list it was added to. */
  lemma RemoveAfterAppend(s: seq<string>, x: string)
    requires x !in s
    ensures RemoveFirst(s + [x], x) == s
  {
    assert (s + [x])[|s|] == x && (s + [x])[..|s|] == s;
    assert IndexOf(s + [x], x) == |s|;
  }

  lemma DistinctRemoveFirst(s: seq<string>, x: string)
    requires Distinct(s) && x in s
    ensures Distinct(RemoveFirst(s, x)) && x !in RemoveFirst(s, x)
  {
    var i := IndexOf(s, x);
    var r := RemoveFirst(s, x);
    forall a, b | 0 <= a < b < |r| ensures r[a] != r[b] {
      var a' := if a < i then a else a + 1;
      var b' := if b < i then b else b + 1;
      assert r[a] == s[a'] && r[b] == s[b'];
    }
    forall a | 0 <= a < |r| ensures r[a] != x {
      var a' := if a < i then a else a + 1;
      assert r[a] == s[a'];
    }
  }

  // ---------------------------------------------------------------------------
  // Valuation and points as functions of a roster and a race

  /** Every driver is priced in the current race or, failing that, the previous one. */
  predicate DriversPriced(ds: seq<string>, race: Race, racePrev: Race) {
    forall d :: d in ds ==> d in race.drivers || d in racePrev.drivers
  }

  /** A driver's price: the current race's, or the previous race's for a driver no longer racing. */
  function DriverPrice(d: string, race: Race, racePrev: Race): real
    requires d in race.drivers || d in racePrev.drivers
  {
    if d in race.drivers then race.drivers[d].price else racePrev.drivers[d].price
  }

  /** The sum of the drivers' prices, in roster order. */
  function DriversValue(ds: seq<string>, race: Race, racePrev: Race): real
    requires DriversPriced(ds, race, racePrev)
  {
    if ds == [] then 0.0
    else DriversValue(ds[..|ds| - 1], race, racePrev) + DriverPrice(ds[|ds| - 1], race, racePrev)
  }

  /** The sum of the constructors' prices in the race. */
  function ConstructorsValue(cs: seq<string>, race: Race): real
    requires forall c :: c in cs ==> c in race.constructors
  {
    if cs == [] then 0.0
    else ConstructorsValue(cs[..|cs| - 1], race) + race.constructors[cs[|cs| - 1]].price
  }

  /** The sum of the drivers' points in the race. */
  function DriversPoints(ds: seq<string>, race: Race): int
    requires forall d :: d in ds ==> d in race.drivers
  {
    if ds == [] then 0
    else DriversPoints(ds[..|ds| - 1], race) + race.drivers[ds[|ds| - 1]].points
  }

  /** The sum of the constructors' points in the race. */
  function ConstructorsPoints(cs: seq<string>, race: Race): int
    requires forall c :: c in cs ==> c in race.constructors
  {
    if cs == [] then 0
    else ConstructorsPoints(cs[..|cs| - 1], race) + race.constructors[cs[|cs| - 1]].points
  }

  /** The previous race's prices are consulted only for drivers missing from the current race. */
  lemma {:induction false} DriversValueIgnoresPrevious(ds: seq<string>, race: Race, p1: Race, p2: Race)
    requires forall d :: d in ds ==> d in race.drivers
    ensures DriversValue(ds, race, p1) == DriversValue(ds, race, p2)
  {
    if ds != [] {
      DriversValueIgnoresPrevious(ds[..|ds| - 1], race, p1, p2);
    }
  }

  /** With no price below zero, a roster's value is not negative. */
  lemma {:induction false} DriversValueNonNegative(ds: seq<string>, race: Race, racePrev: Race)
    requires DriversPriced(ds, race, racePrev)
    requires forall d :: d in race.drivers ==> race.drivers[d].price >= 0.0
    requires forall d :: d in racePrev.drivers ==> racePrev.drivers[d].price >= 0.0
    ensures DriversValue(ds, race, racePrev) >= 0.0
  {
    if ds != [] {
      DriversValueNonNegative(ds[..|ds| - 1], race, racePrev);
    }
  }

  /**
   * The DRS scan over the team's drivers: the index of the driver that ends up
   * holding the strictly greatest price above 0.0, or -1 when none does.
   */
  function BestIndex(ds: seq<string>, race: Race): (b: int)
    requires forall d :: d in ds ==> d in race.drivers
    ensures -1 <= b < |ds|
  {
    if ds == [] then -1
    else
      var b := BestIndex(ds[..|ds| - 1], race);
      var best := if b < 0 then 0.0 else race.drivers[ds[b]].price;
      if race.drivers[ds[|ds| - 1]].price > best then |ds| - 1 else b
  }

  /**
   * The scan picks the FIRST driver of strictly greatest price, provided that price
   * is above 0.0; when no driver is priced above 0.0 it picks none.
   */
  lemma {:induction false} BestIndexIsFirstMaximum(ds: seq<string>, race: Race)
    requires forall d :: d in ds ==> d in race.drivers
    ensures var b := BestIndex(ds, race);
            && (b < 0 ==> forall j :: 0 <= j < |ds| ==> race.drivers[ds[j]].price <= 0.0)
            && (b >= 0 ==> && race.drivers[ds[b]].price > 0.0
                           && (forall j :: 0 <= j < b ==> race.drivers[ds[j]].price < race.drivers[ds[b]].price)
                           && (forall j :: b < j < |ds| ==> race.drivers[ds[j]].price <= race.drivers[ds[b]].price))
  {
    if ds != [] {
      var p := ds[..|ds| - 1];
      BestIndexIsFirstMaximum(p, race);
      assert forall j :: 0 <= j < |p| ==> ds[j] == p[j];
    }
  }

  /**
   * `get_drs_points`: the named DRS driver's points when that name races (whether or
   * not it is on the team), else the points of the driver the scan picks, else 0.
   */
  function DrsPoints(drs: string, ds: seq<string>, race: Race): int
    requires drs in race.drivers || forall d :: d in ds ==> d in race.drivers
  {
    if drs in race.drivers then race.drivers[drs].points
    else
      var b := BestIndex(ds, race);
      if b < 0 then 0 else race.drivers[ds[b]].points
  }

  // ---------------------------------------------------------------------------
  // The team

  class Team {
    var drivers: seq<string>
    var constructors: seq<string>
    const numDrivers: nat
    const numConstructors: nat
    var unusedBudget: real
    var totalPoints: int
    var drsDriver: string

    /** Each roster holds at most its configured count of names, none twice. */
    ghost predicate Valid()
      reads this
    {
      && |drivers| <= numDrivers && |constructors| <= numConstructors
      && Distinct(drivers) && Distinct(constructors)
    }

    /** An empty team with the given roster sizes and unused budget. */
    constructor (numDrivers: nat, numConstructors: nat, unusedBudget: real)
      ensures Valid()
      ensures this.numDrivers == numDrivers && this.numConstructors == numConstructors
      ensures this.unusedBudget == unusedBudget
      ensures drivers == [] && constructors == [] && totalPoints == 0 && drsDriver == ""
    {
      this.numDrivers := numDrivers;
      this.numConstructors := numConstructors;
      this.unusedBudget := unusedBudget;
      drivers := [];
      constructors := [];
      totalPoints := 0;
      drsDriver := "";
    }

    /** The roster of one asset type. */
    function Roster(t: AssetType): seq<string>
      reads this
    {
      match t
      case DriverType => drivers
      case ConstructorType => constructors
    }

    /** The configured size of one roster. */
    function Limit(t: AssetType): nat {
      match t
      case DriverType => numDrivers
      case ConstructorType => numConstructors
    }

    /**
     * `add_asset`: a name already on the roster fails first, then a full roster;
     * otherwise the name is appended and nothing else changes.
     */
    method AddAsset(t: AssetType, name: string) returns (o: Outcome<TeamError>)
      requires Valid()
      modifies this
      ensures Valid()
      ensures o == if name in old(Roster(t)) then Fail(AlreadyPresent(t, name))
                   else if |old(Roster(t))| >= Limit(t) then Fail(LimitReached(t, name))
                   else Pass
      ensures Roster(t) == if o.Pass? then old(Roster(t)) + [name] else old(Roster(t))
      ensures Roster(OtherType(t)) == old(Roster(OtherType(t)))
      ensures unusedBudget == old(unusedBudget) && totalPoints == old(totalPoints) && drsDriver == old(drsDriver)
    {
      if name in Roster(t) {
        return Fail(AlreadyPresent(t, name));
      }
      if |Roster(t)| >= Limit(t) {
        return Fail(LimitReached(t, name));
      }
      match t {
        case DriverType => drivers := drivers + [name];
        case ConstructorType => constructors := constructors + [name];
      }
      o := Pass;
    }

    /**
     * `remove_asset`: a name not on the roster fails; otherwise it is taken out,
     * the remaining names keep their order and nothing else changes.
     */
    method RemoveAsset(t: AssetType, name: string) returns (o: Outcome<TeamError>)
      requires Valid()
      modifies this
      ensures Valid()
      ensures o == if name in old(Roster(t)) then Pass else Fail(NotPresent(t, name))
      ensures o.Pass? ==> Roster(t) == RemoveFirst(old(Roster(t)), name) && name !in Roster(t)
      ensures o.Fail? ==> Roster(t) == old(Roster(t))
      ensures Roster(OtherType(t)) == old(Roster(OtherType(t)))
      ensures unusedBudget == old(unusedBudget) && totalPoints == old(totalPoints) && drsDriver == old(drsDriver)
    {
      if name !in Roster(t) {
        return Fail(NotPresent(t, name));
      }
      DistinctRemoveFirst(Roster(t), name);
      match t {
        case DriverType => drivers := RemoveFirst(drivers, name);
        case ConstructorType => constructors := RemoveFirst(constructors, name);
      }
      o := Pass;
    }

    /** `remove_all_assets`: both rosters emptied, nothing else changed. */
    method RemoveAllAssets()
      requires Valid()
      modifies this
      ensures Valid()
      ensures drivers == [] && constructors == []
      ensures unusedBudget == old(unusedBudget) && totalPoints == old(totalPoints) && drsDriver == old(drsDriver)
    {
      drivers := [];
      constructors := [];
    }

    /** `check_asset_counts`: each roster must hold exactly its configured count, drivers checked first. */
    function CheckAssetCounts(): (o: Outcome<TeamError>)
      reads this
      ensures o.Pass? <==> |drivers| == numDrivers && |constructors| == numConstructors
      ensures o.Fail? ==> && o.error.IncorrectCount?
                          && o.error.actual == |Roster(o.error.assetType)|
                          && o.error.expected == Limit(o.error.assetType)
                          && o.error.actual != o.error.expected
                          && (o.error.assetType == ConstructorType ==> |drivers| == numDrivers)
    {
      if |drivers| != numDrivers then Fail(IncorrectCount(DriverType, |drivers|, numDrivers))
      else if |constructors| != numConstructors then Fail(IncorrectCount(ConstructorType, |constructors|, numConstructors))
      else Pass
    }

    /** `total_value_drivers`: the drivers' prices, the previous race's for a driver not in this one. */
    method TotalValueDrivers(race: Race, racePrev: Race) returns (r: Result<real, TeamError>)
      ensures r.Ok? <==> DriversPriced(drivers, race, racePrev)
      ensures r.Ok? ==> r.value == DriversValue(drivers, race, racePrev)
      ensures r.Err? ==> r.error.UnknownDriver? && r.error.name in drivers
                         && r.error.name !in race.drivers && r.error.name !in racePrev.drivers
    {
      var total := 0.0;
      var i := 0;
      while i < |drivers|
        invariant 0 <= i <= |drivers|
        invariant DriversPriced(drivers[..i], race, racePrev)
        invariant total == DriversValue(drivers[..i], race, racePrev)
      {
        var d := drivers[i];
        if d !in race.drivers {
          if d !in racePrev.drivers {
            return Err(UnknownDriver(d));
          }
          total := total + racePrev.drivers[d].price;
        } else {
          total := total + race.drivers[d].price;
        }
        assert drivers[..i + 1][..i] == drivers[..i];
        i := i + 1;
      }
      assert drivers[..i] == drivers;
      r := Ok(total);
    }

    /** `total_value_constructors`: the constructors' prices in the race. */
    method TotalValueConstructors(race: Race) returns (r: Result<real, TeamError>)
      ensures r.Ok? <==> forall c :: c in constructors ==> c in race.constructors
      ensures r.Ok? ==> r.value == ConstructorsValue(constructors, race)
      ensures r.Err? ==> r.error.UnknownConstructor? && r.error.name in constructors
                         && r.error.name !in race.constructors
    {
      var total := 0.0;
      var i := 0;
      while i < |constructors|
        invariant 0 <= i <= |constructors|
        invariant forall c :: c in constructors[..i] ==> c in race.constructors
        invariant total == ConstructorsValue(constructors[..i], race)
      {
        var c := constructors[i];
        if c !in race.constructors {
          return Err(UnknownConstructor(c));
        }
        total := total + race.constructors[c].price;
        assert constructors[..i + 1][..i] == constructors[..i];
        i := i + 1;
      }
      assert constructors[..i] == constructors;
      r := Ok(total);
    }

    /** `total_value`: the roster sizes are checked, then drivers' and constructors' prices summed. */
    method TotalValue(race: Race, racePrev: Race) returns (r: Result<real, TeamError>)
      ensures r.Ok? <==> && CheckAssetCounts().Pass?
                         && DriversPriced(drivers, race, racePrev)
                         && forall c :: c in constructors ==> c in race.constructors
      ensures r.Ok? ==> r.value == DriversValue(drivers, race, racePrev) + ConstructorsValue(constructors, race)
      ensures CheckAssetCounts().Fail? ==> r == Err(CheckAssetCounts().error)
    {
      var check := CheckAssetCounts();
      if check.Fail? {
        return Err(check.error);
      }
      var dv := TotalValueDrivers(race, racePrev);
      if dv.Err? {
        return Err(dv.error);
      }
      var cv := TotalValueConstructors(race);
      if cv.Err? {
        return Err(cv.error);
      }
      r := Ok(dv.value + cv.value);
    }

    /** `total_budget`: the team's value plus its unused budget. */
    method TotalBudget(race: Race, racePrev: Race) returns (r: Result<real, TeamError>)
      ensures r.Ok? <==> && CheckAssetCounts().Pass?
                         && DriversPriced(drivers, race, racePrev)
                         && forall c :: c in constructors ==> c in race.constructors
      ensures r.Ok? ==> r.value - unusedBudget
                        == DriversValue(drivers, race, racePrev) + ConstructorsValue(constructors, race)
    {
      var value := TotalValue(race, racePrev);
      if value.Err? {
        return Err(value.error);
      }
      r := Ok(value.value + unusedBudget);
    }

    /** `get_drs_points`: the DRS bonus for the race, as `DrsPoints` defines it. */
    method GetDrsPoints(race: Race) returns (r: Result<int, TeamError>)
      ensures r.Ok? <==> drsDriver in race.drivers || forall d :: d in drivers ==> d in race.drivers
      ensures r.Ok? ==> r.value == DrsPoints(drsDriver, drivers, race)
      ensures r.Err? ==> r.error.UnknownDriver? && r.error.name in drivers && r.error.name !in race.drivers
    {
      if drsDriver in race.drivers {
        return Ok(race.drivers[drsDriver].points);
      }
      var maxVal := 0.0;
      var maxPoints := 0;
      var i := 0;
      while i < |drivers|
        invariant 0 <= i <= |drivers|
        invariant forall d :: d in drivers[..i] ==> d in race.drivers
        invariant var b := BestIndex(drivers[..i], race);
                  && maxVal == (if b < 0 then 0.0 else race.drivers[drivers[b]].price)
                  && maxPoints == (if b < 0 then 0 else race.drivers[drivers[b]].points)
      {
        var d := drivers[i];
        if d !in race.drivers {
          return Err(UnknownDriver(d));
        }
        assert drivers[..i + 1][..i] == drivers[..i];
        if race.drivers[d].price > maxVal {
          maxVal := race.drivers[d].price;
          maxPoints := race.drivers[d].points;
        }
        i := i + 1;
      }
      assert drivers[..i] == drivers;
      r := Ok(maxPoints);
    }

    /**
     * `update_points`: the sizes are checked, then the race's driver points,
     * constructor points and DRS bonus are added to the total and returned.
     */
    method UpdatePoints(race: Race) returns (r: Result<int, TeamError>)
      modifies this
      ensures r.Ok? <==> && CheckAssetCounts().Pass?
                         && (forall d :: d in drivers ==> d in race.drivers)
                         && (forall c :: c in constructors ==> c in race.constructors)
      ensures r.Ok? ==> && r.value == DriversPoints(drivers, race) + ConstructorsPoints(constructors, race)
                                      + DrsPoints(drsDriver, drivers, race)
                        && totalPoints == old(totalPoints) + r.value
      ensures r.Err? ==> totalPoints == old(totalPoints)
      ensures drivers == old(drivers) && constructors == old(constructors)
      ensures unusedBudget == old(unusedBudget) && drsDriver == old(drsDriver)
    {
      var check := CheckAssetCounts();
      if check.Fail? {
        return Err(check.error);
      }
      var newPoints := 0;
      var i := 0;
      while i < |drivers|
        invariant 0 <= i <= |drivers|
        invariant forall d :: d in drivers[..i] ==> d in race.drivers
        invariant newPoints == DriversPoints(drivers[..i], race)
      {
        var d := drivers[i];
        if d !in race.drivers {
          return Err(UnknownDriver(d));
        }
        newPoints := newPoints + race.drivers[d].points;
        assert drivers[..i + 1][..i] == drivers[..i];
        i := i + 1;
      }
      assert drivers[..i] == drivers;
      var j := 0;
      while j < |constructors|
        invariant 0 <= j <= |constructors|
        invariant forall c :: c in constructors[..j] ==> c in race.constructors
        invariant newPoints == DriversPoints(drivers, race) + ConstructorsPoints(constructors[..j], race)
      {
        var c := constructors[j];
        if c !in race.constructors {
          return Err(UnknownConstructor(c));
        }
        newPoints := newPoints + race.constructors[c].points;
        assert constructors[..j + 1][..j] == constructors[..j];
        j := j + 1;
      }
      assert constructors[..j] == constructors;
      var drs := GetDrsPoints(race);
      newPoints := newPoints + drs.value;
      totalPoints := totalPoints + newPoints;
      r := Ok(newPoints);
    }

    /**
     * `__str__`: the drivers in ascending order, comma-separated and in parentheses,
     * then the constructors likewise; any sorted arrangement of the names spells it.
     */
    function ToString(): (s: string)
      reads this
      ensures forall ds, cs :: && SortedStrings(ds) && multiset(ds) == multiset(drivers)
                               && SortedStrings(cs) && multiset(cs) == multiset(constructors)
                               ==> s == "(" + Join(",", ds) + ")(" + Join(",", cs) + ")"
    {
      SortIsOnlySortedArrangement(drivers);
      SortIsOnlySortedArrangement(constructors);
      "(" + Join(",", Sort(drivers)) + ")(" + Join(",", Sort(constructors)) + ")"
    }
  }

  /** Two teams holding the same names, in any order, print the same. */
  lemma ToStringIgnoresOrder(a: Team, b: Team)
    requires multiset(a.drivers) == multiset(b.drivers)
    requires multiset(a.constructors) == multiset(b.constructors)
    ensures a.ToString() == b.ToString()
  {
    SortedUnique(Sort(a.drivers), Sort(b.drivers));
    SortedUnique(Sort(a.constructors), Sort(b.constructors));
  }

  // ---------------------------------------------------------------------------
  // Factories

  /** The names of a row of per-asset values (a dict's keys, in order). */
  function RowNames(row: seq<(string, Option<real>)>): (names: seq<string>)
    ensures |names| == |row| && forall i :: 0 <= i < |row| ==> names[i] == row[i].0
  {
    seq(|row|, i requires 0 <= i < |row| => row[i].0)
  }

  /** A row entry that selects an asset: it has a value (is not NaN). */
  predicate Selected(e: (string, Option<real>)) {
    e.1.Some?
  }

  /** The selected entries naming a race driver, in row order. */
  function RowDrivers(row: seq<(string, Option<real>)>, race: Race): (ds: seq<string>)
    ensures forall d :: d in ds ==> d in race.drivers && d in RowNames(row)
  {
    if row == [] then []
    else
      var p := row[..|row| - 1];
      var e := row[|row| - 1];
      assert forall x :: x in RowNames(p) ==> x in RowNames(row) by {
        forall x | x in RowNames(p) ensures x in RowNames(row) {
          var k :| 0 <= k < |p| && RowNames(p)[k] == x;
          assert RowNames(row)[k] == x;
        }
      }
      assert RowNames(row)[|row| - 1] == e.0;
      RowDrivers(p, race) + if Selected(e) && e.0 in race.drivers then [e.0] else []
  }

  /** The selected entries naming a race constructor (and not a driver), in row order. */
  function RowConstructors(row: seq<(string, Option<real>)>, race: Race): (cs: seq<string>)
    ensures forall c :: c in cs ==> c in race.constructors && c in RowNames(row)
  {
    if row == [] then []
    else
      var p := row[..|row| - 1];
      var e := row[|row| - 1];
      assert forall x :: x in RowNames(p) ==> x in RowNames(row) by {
        forall x | x in RowNames(p) ensures x in RowNames(row) {
          var k :| 0 <= k < |p| && RowNames(p)[k] == x;
          assert RowNames(row)[k] == x;
        }
      }
      assert RowNames(row)[|row| - 1] == e.0;
      RowConstructors(p, race)
        + if Selected(e) && e.0 !in race.drivers && e.0 in race.constructors then [e.0] else []
  }

  /** The sum of the row's values over the entries it selects as drivers or constructors. */
  function RowValue(row: seq<(string, Option<real>)>, race: Race): real {
    if row == [] then 0.0
    else
      var e := row[|row| - 1];
      RowValue(row[..|row| - 1], race)
        + if Selected(e) && (e.0 in race.drivers || e.0 in race.constructors) then e.1.value else 0.0
  }

  /** One more entry of a row extends the selections by at most that entry. */
  lemma RowSnoc(row: seq<(string, Option<real>)>, race: Race, i: nat)
    requires i < |row|
    ensures var e := row[i];
            && RowDrivers(row[..i + 1], race)
               == RowDrivers(row[..i], race) + (if Selected(e) && e.0 in race.drivers then [e.0] else [])
            && RowConstructors(row[..i + 1], race)
               == RowConstructors(row[..i], race)
                  + (if Selected(e) && e.0 !in race.drivers && e.0 in race.constructors then [e.0] else [])
            && RowValue(row[..i + 1], race)
               == RowValue(row[..i], race)
                  + (if Selected(e) && (e.0 in race.drivers || e.0 in race.constructors) then e.1.value else 0.0)
  {
    assert row[..i + 1][..i] == row[..i];
  }

  /** With distinct names, an entry's name is not among the names before it. */
  lemma RowNameIsNew(row: seq<(string, Option<real>)>, i: nat)
    requires Distinct(RowNames(row)) && i < |row|
    ensures row[i].0 !in RowNames(row[..i])
  {
    assert RowNames(row)[i] == row[i].0;
    forall k | 0 <= k < i ensures RowNames(row[..i])[k] != row[i].0 {
      assert RowNames(row[..i])[k] == RowNames(row)[k];
    }
  }

  /** A prefix of a row selects no more drivers or constructors than the whole row. */
  lemma {:induction false} RowPrefixSelectsLess(row: seq<(string, Option<real>)>, race: Race, i: nat)
    requires i <= |row|
    ensures |RowDrivers(row[..i], race)| <= |RowDrivers(row, race)|
    ensures |RowConstructors(row[..i], race)| <= |RowConstructors(row, race)|
    decreases |row|
  {
    if i < |row| {
      var p := row[..|row| - 1];
      assert row[..i] == p[..i];
      RowPrefixSelectsLess(p, race, i);
    } else {
      assert row[..i] == row;
    }
  }

  /**
   * One step of `factory_team_row`: the entry at `i` joins the team's drivers or
   * constructors when it selects one; a failure means the row selects too many.
   */
  method AddRowEntry(team: Team, row: seq<(string, Option<real>)>, race: Race, i: nat, total: real)
    returns (total': real, o: Outcome<TeamError>)
    requires Distinct(RowNames(row)) && i < |row|
    requires team.Valid()
    requires team.drivers == RowDrivers(row[..i], race) && team.constructors == RowConstructors(row[..i], race)
    modifies team
    ensures team.Valid()
    ensures team.totalPoints == old(team.totalPoints) && team.drsDriver == old(team.drsDriver)
    ensures o.Pass? ==> && team.drivers == RowDrivers(row[..i + 1], race)
                        && team.constructors == RowConstructors(row[..i + 1], race)
                        && total' == total + (RowValue(row[..i + 1], race) - RowValue(row[..i], race))
    ensures o.Fail? ==> |RowDrivers(row, race)| != team.numDrivers
                        || |RowConstructors(row, race)| != team.numConstructors
  {
    var (name, value) := row[i];
    RowSnoc(row, race, i);
    total' := total;
    o := Pass;
    if value.Some? && (name in race.drivers || name in race.constructors) {
      var t := if name in race.drivers then DriverType else ConstructorType;
      RowNameIsNew(row, i);
      o := team.AddAsset(t, name);
      if o.Fail? {
        RowPrefixSelectsLess(row, race, i + 1);
        return;
      }
      total' := total + value.value;
    }
  }

  /**
   * `factory_team_row`: every selected entry naming a race driver joins the drivers,
   * else one naming a race constructor joins the constructors; the counts must then
   * be exact, and the unused budget is the total budget less the selected values.
   */
  method FactoryTeamRow(row: seq<(string, Option<real>)>, race: Race, numDrivers: nat, numConstructors: nat,
                        totalBudget: real)
    returns (r: Result<Team, TeamError>)
    requires Distinct(RowNames(row))
    ensures r.Ok? <==> |RowDrivers(row, race)| == numDrivers && |RowConstructors(row, race)| == numConstructors
    ensures r.Ok? ==> && fresh(r.value) && r.value.Valid()
                      && r.value.drivers == RowDrivers(row, race)
                      && r.value.constructors == RowConstructors(row, race)
                      && r.value.numDrivers == numDrivers && r.value.numConstructors == numConstructors
                      && r.value.unusedBudget + RowValue(row, race) == totalBudget
                      && r.value.totalPoints == 0 && r.value.drsDriver == ""
  {
    var team := new Team(numDrivers, numConstructors, 0.0);
    var total := 0.0;
    var i := 0;
    while i < |row|
      invariant 0 <= i <= |row|
      invariant team.Valid()
      invariant team.numDrivers == numDrivers && team.numConstructors == numConstructors
      invariant team.drivers == RowDrivers(row[..i], race)
      invariant team.constructors == RowConstructors(row[..i], race)
      invariant total == RowValue(row[..i], race)
      invariant team.totalPoints == 0 && team.drsDriver == ""
    {
      var added;
      total, added := AddRowEntry(team, row, race, i, total);
      if added.Fail? {
        return Err(added.error);
      }
      i := i + 1;
    }
    assert row[..i] == row;
    if |team.drivers| != numDrivers {
      return Err(IncorrectDrivers);
    }
    if |team.constructors| != numConstructors {
      return Err(IncorrectConstructors);
    }
    team.unusedBudget := totalBudget - total;
    r := Ok(team);
  }

  /**
   * `factory_team_lists`: a team sized by the two lists, holding them in order; its
   * unused budget is what is left of the total budget after the team's value in the
   * race, so its total budget for that race is the total budget given.
   */
  method FactoryTeamLists(drivers: seq<string>, constructors: seq<string>, race: Race, totalBudget: real)
    returns (r: Result<Team, TeamError>)
    ensures r.Ok? <==> && Distinct(drivers) && Distinct(constructors)
                       && (forall d :: d in drivers ==> d in race.drivers)
                       && (forall c :: c in constructors ==> c in race.constructors)
    ensures r.Ok? ==> && fresh(r.value) && r.value.Valid()
                      && r.value.drivers == drivers && r.value.constructors == constructors
                      && r.value.numDrivers == |drivers| && r.value.numConstructors == |constructors|
                      && r.value.totalPoints == 0 && r.value.drsDriver == ""
                      && DriversValue(drivers, race, race) + ConstructorsValue(constructors, race)
                         + r.value.unusedBudget == totalBudget
  {
    var team := new Team(|drivers|, |constructors|, 0.0);
    var i := 0;
    while i < |drivers|
      invariant 0 <= i <= |drivers|
      invariant team.Valid() && team.numDrivers == |drivers| && team.numConstructors == |constructors|
      invariant team.drivers == drivers[..i] && team.constructors == []
      invariant team.totalPoints == 0 && team.drsDriver == ""
    {
      var added := team.AddAsset(DriverType, drivers[i]);
      if added.Fail? {
        return Err(added.error);
      }
      assert drivers[..i + 1] == drivers[..i] + [drivers[i]];
      i := i + 1;
    }
    assert drivers[..i] == drivers;
    var j := 0;
    while j < |constructors|
      invariant 0 <= j <= |constructors|
      invariant team.Valid() && team.numDrivers == |drivers| && team.numConstructors == |constructors|
      invariant team.drivers == drivers && team.constructors == constructors[..j]
      invariant team.totalPoints == 0 && team.drsDriver == ""
    {
      var added := team.AddAsset(ConstructorType, constructors[j]);
      if added.Fail? {
        return Err(added.error);
      }
      assert constructors[..j + 1] == constructors[..j] + [constructors[j]];
      j := j + 1;
    }
    assert constructors[..j] == constructors;
    var value := team.TotalValue(race, race);
    if value.Err? {
      return Err(value.error);
    }
    team.unusedBudget := totalBudget - value.value;
    r := Ok(team);
  }
}
