/**
 * The strategy scaffold: validation of a strategy's inputs, the prohibitive price
 * for team drivers who have left, the selection variables and constraints, and
 * the execution that hands the strategy's problem to a solver.
 */
module StrategyBase {
  import opened Wrappers
  import opened Text
  import opened Lp
  import opened StrategyBudget
  import opened StrategyZeroStop

  /** A price no team can afford. */
  const COST_PROHIBITIVE: real := 999999.99

  /**
   * What a strategy is constructed from. The two dictionaries carry their key
   * order, which decides which failing key the checks report first.
   */
  datatype StrategyInputs = StrategyInputs(
    teamDrivers: seq<string>,
    teamConstructors: seq<string>,
    availableDrivers: seq<string>,
    availableConstructors: seq<string>,
    driverPairs: map<string, string>,
    driverPairsOrder: seq<string>,
    maxCost: real,
    maxMoves: int,
    prices: map<string, real>,
    pricesOrder: seq<string>)
  {
    /** Each order lists its dictionary's keys once each. */
    predicate WellFormed() {
      KeyOrder(driverPairsOrder, driverPairs) && KeyOrder(pricesOrder, prices)
    }
  }

  /** `keys` is an iteration order of the dictionary `m`: each key once, and nothing else. */
  predicate KeyOrder<V>(keys: seq<string>, m: map<string, V>) {
    Distinct(keys) && (forall k :: k in keys ==> k in m) && (forall k :: k in m ==> k in keys)
  }

  datatype ConfigError =
    | UnknownTeamConstructor(name: string)
    | TooManyTeamDrivers(count: nat, available: nat)
    | TooManyTeamConstructors(count: nat, available: nat)
    | MissingDriverData(name: string, dataType: string)
    | MissingConstructorData(name: string, dataType: string)
    | UnavailableData(name: string, dataType: string)
    | PairingUnknownDriver(driver: string, constructorName: string)
    | PairingUnknownConstructor(driver: string, constructorName: string)
    | UnpairedDriver(name: string)
    | ObjectiveNotSet

  // ---------------------------------------------------------------------------
  // Validation

  /** Team constructors are available, and the team is no larger than what is available. */
  predicate TeamShapeValid(inputs: StrategyInputs) {
    && (forall c :: c in inputs.teamConstructors ==> c in inputs.availableConstructors)
    && |inputs.teamDrivers| <= |inputs.availableDrivers|
    && |inputs.teamConstructors| <= |inputs.availableConstructors|
  }

  /** A team-shape error names a check that fails, after every earlier check passed. */
  predicate ShapeErrorJustified(e: ConfigError, inputs: StrategyInputs) {
    match e
    case UnknownTeamConstructor(c) => c in inputs.teamConstructors && c !in inputs.availableConstructors
    case TooManyTeamDrivers(n, m) =>
      && (forall c :: c in inputs.teamConstructors ==> c in inputs.availableConstructors)
      && n == |inputs.teamDrivers| && m == |inputs.availableDrivers| && n > m
    case TooManyTeamConstructors(n, m) =>
      && (forall c :: c in inputs.teamConstructors ==> c in inputs.availableConstructors)
      && |inputs.teamDrivers| <= |inputs.availableDrivers|
      && n == |inputs.teamConstructors| && m == |inputs.availableConstructors| && n > m
    case _ => false
  }

  /** The team-shape checks at the start of `StrategyBase.__init__`, in their order. */
  method CheckTeamShape(inputs: StrategyInputs) returns (o: Outcome<ConfigError>)
    ensures o.Pass? <==> TeamShapeValid(inputs)
    ensures o.Fail? ==> ShapeErrorJustified(o.error, inputs)
  {
    var i := 0;
    while i < |inputs.teamConstructors|
      invariant 0 <= i <= |inputs.teamConstructors|
      invariant forall k :: 0 <= k < i ==> inputs.teamConstructors[k] in inputs.availableConstructors
    {
      if inputs.teamConstructors[i] !in inputs.availableConstructors {
        return Fail(UnknownTeamConstructor(inputs.teamConstructors[i]));
      }
      i := i + 1;
    }
    if |inputs.teamDrivers| > |inputs.availableDrivers| {
      return Fail(TooManyTeamDrivers(|inputs.teamDrivers|, |inputs.availableDrivers|));
    }
    if |inputs.teamConstructors| > |inputs.availableConstructors| {
      return Fail(TooManyTeamConstructors(|inputs.teamConstructors|, |inputs.availableConstructors|));
    }
    o := Pass;
  }

  /** Every available asset has data, and everything with data is available. */
  predicate DataValid(availableDrivers: seq<string>, availableConstructors: seq<string>, data: map<string, real>) {
    && (forall d :: d in availableDrivers ==> d in data)
    && (forall c :: c in availableConstructors ==> c in data)
    && (forall k :: k in data ==> k in availableDrivers || k in availableConstructors)
  }

  /** A data error names a check that fails, after every earlier check passed. */
  predicate DataErrorJustified(e: ConfigError, availableDrivers: seq<string>, availableConstructors: seq<string>,
                               data: map<string, real>, dataKeys: seq<string>, dataType: string)
  {
    match e
    case MissingDriverData(n, t) => t == dataType && FirstMissing(availableDrivers, n, data)
    case MissingConstructorData(n, t) =>
      && t == dataType && FirstMissing(availableConstructors, n, data)
      && (forall d :: d in availableDrivers ==> d in data)
    case UnavailableData(n, t) =>
      && t == dataType && n in data && n !in availableDrivers && n !in availableConstructors
      && (forall d :: d in availableDrivers ==> d in data)
      && (forall c :: c in availableConstructors ==> c in data)
      && AvailableBefore(dataKeys, n, availableDrivers, availableConstructors)
    case _ => false
  }

  /** `n` is the first name of the list that is not a key of `m`. */
  predicate FirstMissing<V>(names: seq<string>, n: string, m: map<string, V>) {
    n !in m && exists i :: 0 <= i < |names| && names[i] == n && forall j :: 0 <= j < i ==> names[j] in m
  }

  /** Every key before `n` in the order is an available driver or constructor. */
  predicate AvailableBefore(keys: seq<string>, n: string, availableDrivers: seq<string>,
                            availableConstructors: seq<string>)
  {
    exists i :: 0 <= i < |keys| && keys[i] == n &&
      forall j :: 0 <= j < i ==> keys[j] in availableDrivers || keys[j] in availableConstructors
  }

  /**
   * `verify_data_available`: drivers, then constructors, then the data's own keys in
   * the dictionary's order, so an unavailable key is the first one in that order.
   */
  method VerifyDataAvailable(availableDrivers: seq<string>, availableConstructors: seq<string>,
                             data: map<string, real>, dataKeys: seq<string>, dataType: string)
    returns (o: Outcome<ConfigError>)
    requires KeyOrder(dataKeys, data)
    ensures o.Pass? <==> DataValid(availableDrivers, availableConstructors, data)
    ensures o.Fail? ==> DataErrorJustified(o.error, availableDrivers, availableConstructors, data, dataKeys, dataType)
  {
    var i := 0;
    while i < |availableDrivers|
      invariant 0 <= i <= |availableDrivers|
      invariant forall k :: 0 <= k < i ==> availableDrivers[k] in data
    {
      if availableDrivers[i] !in data {
        return Fail(MissingDriverData(availableDrivers[i], dataType));
      }
      i := i + 1;
    }
    var j := 0;
    while j < |availableConstructors|
      invariant 0 <= j <= |availableConstructors|
      invariant forall k :: 0 <= k < j ==> availableConstructors[k] in data
    {
      if availableConstructors[j] !in data {
        return Fail(MissingConstructorData(availableConstructors[j], dataType));
      }
      j := j + 1;
    }
    for k := 0 to |dataKeys|
      invariant forall j :: 0 <= j < k ==> dataKeys[j] in availableDrivers || dataKeys[j] in availableConstructors
    {
      if dataKeys[k] !in availableDrivers && dataKeys[k] !in availableConstructors {
        return Fail(UnavailableData(dataKeys[k], dataType));
      }
    }
    o := Pass;
  }

  /** Every pairing joins an available driver to an available constructor, and every available driver is paired. */
  predicate PairingsValid(availableDrivers: seq<string>, availableConstructors: seq<string>,
                          pairs: map<string, string>)
  {
    && (forall k :: k in pairs ==> k in availableDrivers && pairs[k] in availableConstructors)
    && (forall d :: d in availableDrivers ==> d in pairs)
  }

  /** A pairing error names a check that fails, after every earlier check passed. */
  predicate PairingErrorJustified(e: ConfigError, availableDrivers: seq<string>, availableConstructors: seq<string>,
                                  pairs: map<string, string>, pairKeys: seq<string>)
  {
    match e
    case PairingUnknownDriver(d, c) =>
      d in pairs && pairs[d] == c && d !in availableDrivers && PairedBefore(pairKeys, d, availableDrivers, availableConstructors, pairs)
    case PairingUnknownConstructor(d, c) =>
      && d in pairs && pairs[d] == c && d in availableDrivers && c !in availableConstructors
      && PairedBefore(pairKeys, d, availableDrivers, availableConstructors, pairs)
    case UnpairedDriver(d) =>
      && FirstMissing(availableDrivers, d, pairs)
      && forall k :: k in pairs ==> k in availableDrivers && pairs[k] in availableConstructors
    case _ => false
  }

  /** Every pairing before driver `d` in the order joins an available driver to an available constructor. */
  predicate PairedBefore(keys: seq<string>, d: string, availableDrivers: seq<string>,
                         availableConstructors: seq<string>, pairs: map<string, string>)
  {
    exists i :: 0 <= i < |keys| && keys[i] == d &&
      forall j :: 0 <= j < i ==> keys[j] in availableDrivers && keys[j] in pairs && pairs[keys[j]] in availableConstructors
  }

  /**
   * The pairing checks of `StrategyBase.__init__`: each pairing in the dictionary's
   * order, the driver before its constructor, then each available driver.
   */
  method CheckPairings(availableDrivers: seq<string>, availableConstructors: seq<string>,
                       pairs: map<string, string>, pairKeys: seq<string>)
    returns (o: Outcome<ConfigError>)
    requires KeyOrder(pairKeys, pairs)
    ensures o.Pass? <==> PairingsValid(availableDrivers, availableConstructors, pairs)
    ensures o.Fail? ==> PairingErrorJustified(o.error, availableDrivers, availableConstructors, pairs, pairKeys)
  {
    for k := 0 to |pairKeys|
      invariant forall j :: 0 <= j < k ==>
                  pairKeys[j] in availableDrivers && pairKeys[j] in pairs && pairs[pairKeys[j]] in availableConstructors
    {
      var d := pairKeys[k];
      if d !in availableDrivers {
        return Fail(PairingUnknownDriver(d, pairs[d]));
      }
      if pairs[d] !in availableConstructors {
        return Fail(PairingUnknownConstructor(d, pairs[d]));
      }
    }
    var i := 0;
    while i < |availableDrivers|
      invariant 0 <= i <= |availableDrivers|
      invariant forall k :: 0 <= k < i ==> availableDrivers[k] in pairs
    {
      if availableDrivers[i] !in pairs {
        return Fail(UnpairedDriver(availableDrivers[i]));
      }
      i := i + 1;
    }
    o := Pass;
  }

  /** Every check of `StrategyBase.__init__` passes. */
  predicate InputsValid(inputs: StrategyInputs) {
    && TeamShapeValid(inputs)
    && DataValid(inputs.availableDrivers, inputs.availableConstructors, inputs.prices)
    && PairingsValid(inputs.availableDrivers, inputs.availableConstructors, inputs.driverPairs)
  }

  /** The strategy's prices: the given ones, and `COST_PROHIBITIVE` for each unpriced team driver. */
  function WithProhibitive(prices: map<string, real>, teamDrivers: seq<string>): (p: map<string, real>)
    ensures p.Keys == prices.Keys + Elems(teamDrivers)
    ensures forall k :: k in prices ==> p[k] == prices[k]
    ensures forall k :: k in p && k !in prices ==> k in teamDrivers && p[k] == COST_PROHIBITIVE
  {
    map k | k in prices.Keys + Elems(teamDrivers) :: if k in prices then prices[k] else COST_PROHIBITIVE
  }

  /**
   * The price copy of `StrategyBase.__init__`: every given price unchanged, and each
   * team driver without a price given `COST_PROHIBITIVE`; the caller's map is a value
   * and so is untouched.
   */
  method ProhibitivePrices(prices: map<string, real>, teamDrivers: seq<string>) returns (p: map<string, real>)
    ensures p == WithProhibitive(prices, teamDrivers)
    ensures p.Keys == prices.Keys + Elems(teamDrivers)
    ensures forall k :: k in prices ==> p[k] == prices[k]
    ensures forall k :: k in p && k !in prices ==> k in teamDrivers && p[k] == COST_PROHIBITIVE
  {
    p := prices;
    var i := 0;
    while i < |teamDrivers|
      invariant 0 <= i <= |teamDrivers|
      invariant p.Keys == prices.Keys + Elems(teamDrivers[..i])
      invariant forall k :: k in p ==> p[k] == if k in prices then prices[k] else COST_PROHIBITIVE
    {
      assert Elems(teamDrivers[..i + 1]) == Elems(teamDrivers[..i]) + {teamDrivers[i]};
      if teamDrivers[i] !in p {
        p := p[teamDrivers[i] := COST_PROHIBITIVE];
      }
      i := i + 1;
    }
    assert teamDrivers[..i] == teamDrivers;
  }

  // ---------------------------------------------------------------------------
  // Selection variables

  /**
   * `get_team_selection_dict`: one entry per available or team name, 1 for a team
   * name and 0 otherwise.
   */
  method GetTeamSelectionDict(available: seq<string>, team: seq<string>) returns (sel: map<string, int>)
    ensures sel.Keys == Elems(available) + Elems(team)
    ensures forall k :: k in sel ==> sel[k] == if k in team then 1 else 0
  {
    var all := Elems(available) + Elems(team);
    sel := map[];
    var rest := all;
    while rest != {}
      invariant rest <= all
      invariant sel.Keys == all - rest
      invariant forall k :: k in sel ==> sel[k] == if k in team then 1 else 0
      decreases rest
    {
      var k :| k in rest;
      sel := sel[k := if k in team then 1 else 0];
      rest := rest - {k};
    }
  }

  /** `list(d.keys())`: the keys of a map, each once, in some order. */
  method KeysOf(m: map<string, int>) returns (keys: seq<string>)
    ensures Distinct(keys) && Elems(keys) == m.Keys
  {
    keys := [];
    var rest := m.Keys;
    while rest != {}
      invariant rest <= m.Keys
      invariant Distinct(keys) && Elems(keys) == m.Keys - rest
      decreases rest
    {
      var k :| k in rest;
      assert k !in Elems(keys);
      assert Elems(keys + [k]) == Elems(keys) + {k};
      keys := keys + [k];
      rest := rest - {k};
    }
  }

  // ---------------------------------------------------------------------------
  // Strategies

  /** The strategies with code: the two budget objectives and the points-per-million stub. */
  datatype StrategyKind = MaxBudget | ZeroStop | MaxP2PM

  class Strategy {
    const kind: StrategyKind
    const teamDrivers: seq<string>
    const teamConstructors: seq<string>
    const availableDrivers: seq<string>
    const availableConstructors: seq<string>
    const driverPairs: map<string, string>
    const maxCost: real
    const prices: map<string, real>
    var maxMoves: int
    var driverList: seq<string>       // names carrying a driver selection variable
    var constructorList: seq<string>  // names carrying a constructor selection variable
    var constraints: seq<Constraint>  // the recorded constraints, in insertion order

    /**
     * The inputs passed every check; every available asset and every team driver is
     * priced; every other priced name is a departed team driver priced prohibitively;
     * a zero-stop strategy allows one move per departed team driver.
     */
    ghost predicate Valid()
      reads this
    {
      && (forall c :: c in teamConstructors ==> c in availableConstructors)
      && |teamDrivers| <= |availableDrivers| && |teamConstructors| <= |availableConstructors|
      && PairingsValid(availableDrivers, availableConstructors, driverPairs)
      && (forall d :: d in availableDrivers ==> d in prices)
      && (forall c :: c in availableConstructors ==> c in prices)
      && (forall d :: d in teamDrivers ==> d in prices)
      && (forall k :: k in prices ==>
            k in availableDrivers || k in availableConstructors || (k in teamDrivers && prices[k] == COST_PROHIBITIVE))
      && (kind == ZeroStop ==> maxMoves == |Unavailable(teamDrivers, availableDrivers)|)
    }

    /** The variables and constraints exist: `initialise` has run. */
    ghost predicate Initialised()
      reads this
    {
      && Distinct(driverList) && Elems(driverList) == Elems(availableDrivers) + Elems(teamDrivers)
      && Distinct(constructorList) && Elems(constructorList) == Elems(availableConstructors) + Elems(teamConstructors)
      && constraints == ScaffoldConstraints(Scaffold())
    }

    /** What the constraints are built from. */
    function Scaffold(): Scaffold
      reads this
    {
      Lp.Scaffold(driverList, constructorList, teamDrivers, teamConstructors, prices, maxCost, maxMoves)
    }

    /** The fields as `StrategyBase.__init__` leaves them once every check has passed. */
    constructor (kind: StrategyKind, inputs: StrategyInputs, prices: map<string, real>)
      ensures this.kind == kind && this.prices == prices
      ensures teamDrivers == inputs.teamDrivers && teamConstructors == inputs.teamConstructors
      ensures availableDrivers == inputs.availableDrivers && availableConstructors == inputs.availableConstructors
      ensures driverPairs == inputs.driverPairs && maxCost == inputs.maxCost && maxMoves == inputs.maxMoves
      ensures driverList == [] && constructorList == [] && constraints == []
    {
      this.kind := kind;
      teamDrivers := inputs.teamDrivers;
      teamConstructors := inputs.teamConstructors;
      availableDrivers := inputs.availableDrivers;
      availableConstructors := inputs.availableConstructors;
      driverPairs := inputs.driverPairs;
      maxCost := inputs.maxCost;
      maxMoves := inputs.maxMoves;
      this.prices := prices;
      driverList := [];
      constructorList := [];
      constraints := [];
    }

    /**
     * `StrategyBase.__init__` and the subclass constructors: the team-shape checks,
     * the price checks and the pairing checks in that order, then the prohibitive
     * prices; a zero-stop strategy then replaces the moves ceiling by the number of
     * departed team drivers, whatever ceiling was passed in.
     */
    static method Create(kind: StrategyKind, inputs: StrategyInputs) returns (r: Result<Strategy, ConfigError>)
      requires inputs.WellFormed()
      ensures r.Ok? <==> InputsValid(inputs)
      ensures r.Err? ==>
                if !TeamShapeValid(inputs) then ShapeErrorJustified(r.error, inputs)
                else if !DataValid(inputs.availableDrivers, inputs.availableConstructors, inputs.prices) then
                  DataErrorJustified(r.error, inputs.availableDrivers, inputs.availableConstructors, inputs.prices,
                                     inputs.pricesOrder, "price")
                else PairingErrorJustified(r.error, inputs.availableDrivers, inputs.availableConstructors,
                                           inputs.driverPairs, inputs.driverPairsOrder)
      ensures r.Ok? ==> && fresh(r.value) && r.value.Valid() && r.value.kind == kind
                        && r.value.teamDrivers == inputs.teamDrivers
                        && r.value.teamConstructors == inputs.teamConstructors
                        && r.value.availableDrivers == inputs.availableDrivers
                        && r.value.availableConstructors == inputs.availableConstructors
                        && r.value.driverPairs == inputs.driverPairs
                        && r.value.maxCost == inputs.maxCost
                        && r.value.prices == WithProhibitive(inputs.prices, inputs.teamDrivers)
                        && r.value.maxMoves == if kind == ZeroStop
                                               then |Unavailable(inputs.teamDrivers, inputs.availableDrivers)|
                                               else inputs.maxMoves
    {
      var shape := CheckTeamShape(inputs);
      if shape.Fail? {
        return Err(shape.error);
      }
      var data := VerifyDataAvailable(inputs.availableDrivers, inputs.availableConstructors, inputs.prices,
                                      inputs.pricesOrder, "price");
      if data.Fail? {
        return Err(data.error);
      }
      var pairing := CheckPairings(inputs.availableDrivers, inputs.availableConstructors, inputs.driverPairs,
                                   inputs.driverPairsOrder);
      if pairing.Fail? {
        return Err(pairing.error);
      }
      var prices := ProhibitivePrices(inputs.prices, inputs.teamDrivers);
      var s := new Strategy(kind, inputs, prices);
      if kind == ZeroStop {
        var n := CountUnavailableDrivers(inputs.teamDrivers, inputs.availableDrivers);
        s.maxMoves := n;
      }
      r := Ok(s);
    }

    /**
     * `initialise`: a selection variable for every available or team name, and the
     * cost, team-size and moves constraints in that order.
     */
    method Initialise()
      requires Valid()
      modifies this
      ensures Valid() && Initialised() && Scaffold().WellFormed()
      ensures maxMoves == old(maxMoves)
    {
      var driverTeam := GetTeamSelectionDict(availableDrivers, teamDrivers);
      var constructorTeam := GetTeamSelectionDict(availableConstructors, teamConstructors);
      driverList := KeysOf(driverTeam);
      constructorList := KeysOf(constructorTeam);
      constraints := [
        TotalCostAtMost(maxCost),
        DriverCount(|teamDrivers|),
        ConstructorCount(|teamConstructors|),
        MovesAtMost(maxMoves)
      ];
    }

    /** `get_problem` of each strategy: only the points-per-million stub sets no objective. */
    function GetProblem(): (p: Problem)
      reads this
      ensures p.scaffold == Scaffold() && p.constraints == [] && p.sense == Maximise
      ensures p.objective.None? <==> kind == MaxP2PM
      ensures p.objective.Some? ==> p.objective == Some(TotalCost)
    {
      match kind
      case MaxBudget => MaxBudgetProblem(Scaffold())
      case ZeroStop => ZeroStopProblem(Scaffold())
      case MaxP2PM => Problem("StrategyMaxP2PM", Maximise, None, Scaffold(), [])
    }

    /**
     * `execute`: initialise, take the strategy's problem, fail when it has no
     * objective, add every recorded constraint and hand it to the solver.
     */
    method Execute(solve: Problem -> Selection) returns (r: Result<(Problem, Selection), ConfigError>)
      requires Valid()
      modifies this
      ensures Valid() && Initialised() && maxMoves == old(maxMoves)
      ensures r.Err? <==> GetProblem().objective.None?
      ensures r.Err? ==> r.error == ObjectiveNotSet
      ensures r.Ok? ==> && r.value.0.sense == Maximise && r.value.0.objective == Some(TotalCost)
                        && r.value.0.scaffold == Scaffold()
                        && r.value.0.constraints == ScaffoldConstraints(Scaffold())
                        && r.value.1 == solve(r.value.0)
    {
      Initialise();
      var problem := GetProblem();
      if problem.objective.None? {
        return Err(ObjectiveNotSet);
      }
      var i := 0;
      while i < |constraints|
        invariant 0 <= i <= |constraints|
        invariant problem == GetProblem().(constraints := constraints[..i])
      {
        assert constraints[..i + 1] == constraints[..i] + [constraints[i]];
        problem := problem.(constraints := problem.constraints + [constraints[i]]);
        i := i + 1;
      }
      assert constraints[..i] == constraints;
      r := Ok((problem, solve(problem)));
    }
  }

  // ---------------------------------------------------------------------------
  // What the scaffold guarantees

  /** Every name with a selection variable has a price: the cost sums never fall back to 0. */
  lemma CandidatesPriced(s: Strategy)
    requires s.Valid() && s.Initialised()
    ensures forall x :: x in s.driverList ==> x in s.prices
    ensures forall x :: x in s.constructorList ==> x in s.prices
  {
    forall x | x in s.driverList ensures x in s.prices {
      assert x in Elems(s.driverList);
    }
    forall x | x in s.constructorList ensures x in s.prices {
      assert x in Elems(s.constructorList);
    }
  }

  /**
   * With no negative price and a cost ceiling below `COST_PROHIBITIVE`, a team
   * driver who is no longer available is never in a feasible selection.
   */
  lemma DepartedDriverNeverSelected(s: Strategy, sel: Selection, d: string)
    requires s.Valid() && s.Initialised()
    requires forall k :: k in s.prices ==> s.prices[k] >= 0.0
    requires s.maxCost < COST_PROHIBITIVE
    requires d in s.teamDrivers && d !in s.availableDrivers && d !in s.availableConstructors
    requires Feasible(s.Scaffold(), ScaffoldConstraints(s.Scaffold()), sel)
    ensures d !in sel.drivers
  {
    assert s.prices[d] == COST_PROHIBITIVE;
    UnaffordableNeverSelected(s.Scaffold(), sel, d);
  }

  /** A zero-stop strategy whose team drivers are all available can only keep its team. */
  lemma ZeroStopKeepsAvailableTeam(s: Strategy, sel: Selection)
    requires s.Valid() && s.Initialised() && s.kind == ZeroStop
    requires Distinct(s.teamDrivers) && Distinct(s.teamConstructors)
    requires forall d :: d in s.teamDrivers ==> d in s.availableDrivers
    requires Feasible(s.Scaffold(), ScaffoldConstraints(s.Scaffold()), sel)
    ensures sel == KeepTeam(s.Scaffold())
  {
    NoneUnavailable(s.teamDrivers, s.availableDrivers);
    NoMovesKeepsTeam(s.Scaffold(), sel);
  }

  /**
   * A zero-stop strategy with exactly one departed team driver `d` (and no negative
   * price, and a cost ceiling below `COST_PROHIBITIVE`) keeps every other team
   * member and brings in exactly one new driver.
   */
  lemma ZeroStopReplacesDepartedDriver(s: Strategy, sel: Selection, d: string)
    requires s.Valid() && s.Initialised() && s.kind == ZeroStop
    requires Distinct(s.teamDrivers) && Distinct(s.teamConstructors)
    requires forall k :: k in s.prices ==> s.prices[k] >= 0.0
    requires s.maxCost < COST_PROHIBITIVE
    requires |Unavailable(s.teamDrivers, s.availableDrivers)| == 1
    requires d in s.teamDrivers && d !in s.availableDrivers && d !in s.availableConstructors
    requires Feasible(s.Scaffold(), ScaffoldConstraints(s.Scaffold()), sel)
    ensures sel.constructors == Elems(s.teamConstructors)
    ensures sel.drivers * Elems(s.teamDrivers) == Elems(s.teamDrivers) - {d}
    ensures |sel.drivers - Elems(s.teamDrivers)| == 1
  {
    DepartedDriverNeverSelected(s, sel, d);
    OneMoveReplacesOneDriver(s.Scaffold(), sel, d);
  }
}
