/**
 * The integer program every strategy builds, stated over a candidate selection:
 * binary selection variables over the listed drivers and constructors, the total
 * cost, the team-size equalities and the number of moves away from the current team.
 * A selection is the set of names whose variable is 1.
 */
module Lp {
  import opened Wrappers
  import opened Text

  /** The names of a list, as a set. */
  function Elems(s: seq<string>): set<string> {
    set x | x in s
  }

  /** A list without repeats has as many distinct names as entries. */
  lemma {:induction false} DistinctCard(s: seq<string>)
    requires Distinct(s)
    ensures |Elems(s)| == |s|
  {
    if s != [] {
      var p := s[..|s| - 1];
      DistinctCard(p);
      assert Elems(s) == Elems(p) + {s[|s| - 1]};
      assert forall k :: 0 <= k < |p| ==> p[k] == s[k];
    }
  }

  /** A subset is no larger than its superset. */
  lemma {:induction false} SubsetCard(a: set<string>, b: set<string>)
    requires a <= b
    ensures |a| <= |b|
    decreases b
  {
    if b != {} {
      var x :| x in b;
      SubsetCard(a - {x}, b - {x});
    }
  }

  /** A subset as large as its superset is the superset. */
  lemma SubsetSameCard(a: set<string>, b: set<string>)
    requires a <= b && |a| == |b|
    ensures a == b
  {
    if a != b {
      var x :| x in b && x !in a;
      SubsetCard(a, b - {x});
    }
  }

  /** The names set to 1: selected drivers and selected constructors. */
  datatype Selection = Selection(drivers: set<string>, constructors: set<string>)

  /**
   * What the constraints are built from: the names that carry a selection variable,
   * the current team, the prices, the cost ceiling and the moves ceiling.
   */
  datatype Scaffold = Scaffold(
    driverList: seq<string>,
    constructorList: seq<string>,
    teamDrivers: seq<string>,
    teamConstructors: seq<string>,
    prices: map<string, real>,
    maxCost: real,
    maxMoves: int)
  {
    /** Each variable list names each asset once and holds the current team. */
    predicate WellFormed() {
      && Distinct(driverList) && Distinct(constructorList)
      && Elems(teamDrivers) <= Elems(driverList)
      && Elems(teamConstructors) <= Elems(constructorList)
    }
  }

  /** A name's price; every listed name is priced once the scaffold is built from checked inputs. */
  function Price(prices: map<string, real>, x: string): real {
    if x in prices then prices[x] else 0.0
  }

  /** The sum of the variables over a list: how many listed names are selected. */
  function Picked(list: seq<string>, chosen: set<string>): nat {
    if list == [] then 0
    else Picked(list[..|list| - 1], chosen) + if list[|list| - 1] in chosen then 1 else 0
  }

  /** The sum of price times variable over a list. */
  function PickedCost(list: seq<string>, chosen: set<string>, prices: map<string, real>): real {
    if list == [] then 0.0
    else
      PickedCost(list[..|list| - 1], chosen, prices)
        + if list[|list| - 1] in chosen then Price(prices, list[|list| - 1]) else 0.0
  }

  /** The sum over a list of (1 if on the team else 0) times the variable: the team names kept. */
  function Retained(list: seq<string>, chosen: set<string>, team: seq<string>): nat {
    if list == [] then 0
    else
      Retained(list[..|list| - 1], chosen, team)
        + if list[|list| - 1] in chosen && list[|list| - 1] in team then 1 else 0
  }

  /** The `TotalCost` expression. */
  function Cost(sc: Scaffold, sel: Selection): real {
    PickedCost(sc.driverList, sel.drivers, sc.prices) + PickedCost(sc.constructorList, sel.constructors, sc.prices)
  }

  /** The `TeamMoves` expression: the team's size less the team names kept. */
  function Moves(sc: Scaffold, sel: Selection): int {
    |sc.teamDrivers| + |sc.teamConstructors|
      - (Retained(sc.driverList, sel.drivers, sc.teamDrivers)
         + Retained(sc.constructorList, sel.constructors, sc.teamConstructors))
  }

  /** One constraint of the program. */
  datatype Constraint =
    | TotalCostAtMost(costLimit: real)
    | DriverCount(count: nat)
    | ConstructorCount(count: nat)
    | MovesAtMost(movesLimit: int)

  /** The constraints `initialise` records, in the order it records them. */
  function ScaffoldConstraints(sc: Scaffold): (cs: seq<Constraint>)
    ensures forall sel :: (forall c :: c in cs ==> Satisfies(sc, sel, c)) <==>
                            && Cost(sc, sel) <= sc.maxCost
                            && Picked(sc.driverList, sel.drivers) == |sc.teamDrivers|
                            && Picked(sc.constructorList, sel.constructors) == |sc.teamConstructors|
                            && Moves(sc, sel) <= sc.maxMoves
  {
    var cs := [ TotalCostAtMost(sc.maxCost),
                DriverCount(|sc.teamDrivers|),
                ConstructorCount(|sc.teamConstructors|),
                MovesAtMost(sc.maxMoves) ];
    assert forall sel :: (forall c :: c in cs ==> Satisfies(sc, sel, c)) <==>
                           && Cost(sc, sel) <= sc.maxCost
                           && Picked(sc.driverList, sel.drivers) == |sc.teamDrivers|
                           && Picked(sc.constructorList, sel.constructors) == |sc.teamConstructors|
                           && Moves(sc, sel) <= sc.maxMoves by {
      forall sel
        ensures (forall c :: c in cs ==> Satisfies(sc, sel, c)) <==>
                  && Cost(sc, sel) <= sc.maxCost
                  && Picked(sc.driverList, sel.drivers) == |sc.teamDrivers|
                  && Picked(sc.constructorList, sel.constructors) == |sc.teamConstructors|
                  && Moves(sc, sel) <= sc.maxMoves
      {
        SatisfiesAllOfFour(sc, sel, cs);
        assert Satisfies(sc, sel, cs[0]) <==> Cost(sc, sel) <= sc.maxCost;
        assert Satisfies(sc, sel, cs[3]) <==> Moves(sc, sel) <= sc.maxMoves;
      }
    }
    cs
  }

  /** A selection meets four constraints iff it meets each of them. */
  lemma SatisfiesAllOfFour(sc: Scaffold, sel: Selection, cs: seq<Constraint>)
    requires |cs| == 4
    ensures (forall c :: c in cs ==> Satisfies(sc, sel, c)) <==>
              Satisfies(sc, sel, cs[0]) && Satisfies(sc, sel, cs[1]) &&
              Satisfies(sc, sel, cs[2]) && Satisfies(sc, sel, cs[3])
  {
    if Satisfies(sc, sel, cs[0]) && Satisfies(sc, sel, cs[1]) && Satisfies(sc, sel, cs[2]) && Satisfies(sc, sel, cs[3]) {
      forall c | c in cs
        ensures Satisfies(sc, sel, c)
      {
        var i :| 0 <= i < 4 && cs[i] == c;
      }
    }
  }

  predicate Satisfies(sc: Scaffold, sel: Selection, c: Constraint) {
    match c
    case TotalCostAtMost(limit) => Cost(sc, sel) <= limit
    case DriverCount(n) => Picked(sc.driverList, sel.drivers) == n
    case ConstructorCount(n) => Picked(sc.constructorList, sel.constructors) == n
    case MovesAtMost(limit) => Moves(sc, sel) <= limit
  }

  /** Only names that carry a variable can be set to 1. */
  predicate InRange(sc: Scaffold, sel: Selection) {
    sel.drivers <= Elems(sc.driverList) && sel.constructors <= Elems(sc.constructorList)
  }

  /** A selection meets every constraint. */
  predicate Feasible(sc: Scaffold, constraints: seq<Constraint>, sel: Selection) {
    InRange(sc, sel) && forall c :: c in constraints ==> Satisfies(sc, sel, c)
  }

  /** The `UnusedBudget` expression: never negative for a selection within the cost ceiling. */
  function UnusedBudget(sc: Scaffold, sel: Selection): (u: real)
    ensures Feasible(sc, ScaffoldConstraints(sc), sel) ==> u >= 0.0
  {
    assert TotalCostAtMost(sc.maxCost) in ScaffoldConstraints(sc);
    sc.maxCost - Cost(sc, sel)
  }

  // ---------------------------------------------------------------------------
  // The sums in terms of sets

  /** Over a list without repeats, the variables sum to the number of selected listed names. */
  lemma {:induction false} PickedIsCount(list: seq<string>, chosen: set<string>)
    requires Distinct(list)
    ensures Picked(list, chosen) == |chosen * Elems(list)|
  {
    if list != [] {
      var p := list[..|list| - 1];
      var x := list[|list| - 1];
      LastIsNew(list);
      PickedIsCount(p, chosen);
      var before := chosen * Elems(p);
      assert list[..|list| - 1] == p;
      if x in chosen {
        assert chosen * Elems(list) == before + {x};
        assert x !in before;
        assert Picked(list, chosen) == Picked(p, chosen) + 1;
      } else {
        assert chosen * Elems(list) == before;
        assert Picked(list, chosen) == Picked(p, chosen);
      }
    }
  }

  /** Over a list without repeats, the retained sum counts the selected team names that are listed. */
  lemma RetainedIsCount(list: seq<string>, chosen: set<string>, team: seq<string>)
    requires Distinct(list)
    ensures Retained(list, chosen, team) == |chosen * Elems(team) * Elems(list)|
  {
    RetainedIsPicked(list, chosen, team);
    PickedIsCount(list, chosen * Elems(team));
  }

  /** The retained sum is the roster-size sum over the selected team names. */
  lemma {:induction false} RetainedIsPicked(list: seq<string>, chosen: set<string>, team: seq<string>)
    ensures Retained(list, chosen, team) == Picked(list, chosen * Elems(team))
  {
    if list != [] {
      RetainedIsPicked(list[..|list| - 1], chosen, team);
    }
  }

  /** Splitting the last name off a list without repeats: the rest has no repeats and lacks it. */
  lemma LastIsNew(list: seq<string>)
    requires Distinct(list) && list != []
    ensures var p := list[..|list| - 1];
            Distinct(p) && list[|list| - 1] !in Elems(p) && Elems(list) == Elems(p) + {list[|list| - 1]}
  {
    var p := list[..|list| - 1];
    var x := list[|list| - 1];
    assert list == p + [x];
    forall k | 0 <= k < |p| ensures p[k] != x {
      assert p[k] == list[k];
    }
  }

  /** The scaffold's constraints one by one. */
  lemma FeasibleUnfold(sc: Scaffold, sel: Selection)
    ensures Feasible(sc, ScaffoldConstraints(sc), sel) <==>
              && InRange(sc, sel)
              && Cost(sc, sel) <= sc.maxCost
              && Picked(sc.driverList, sel.drivers) == |sc.teamDrivers|
              && Picked(sc.constructorList, sel.constructors) == |sc.teamConstructors|
              && Moves(sc, sel) <= sc.maxMoves
  {
  }

  /**
   * In set terms: a selection is feasible iff it is within the variables, costs at
   * most the ceiling, has exactly the team's numbers of drivers and constructors,
   * and swaps out at most the moves ceiling of team names.
   */
  lemma FeasibleIff(sc: Scaffold, sel: Selection)
    requires sc.WellFormed()
    ensures Feasible(sc, ScaffoldConstraints(sc), sel) <==>
              && InRange(sc, sel)
              && Cost(sc, sel) <= sc.maxCost
              && |sel.drivers| == |sc.teamDrivers|
              && |sel.constructors| == |sc.teamConstructors|
              && |sc.teamDrivers| + |sc.teamConstructors|
                 - |sel.drivers * Elems(sc.teamDrivers)| - |sel.constructors * Elems(sc.teamConstructors)|
                 <= sc.maxMoves
  {
    FeasibleUnfold(sc, sel);
    if InRange(sc, sel) {
      PickedIsCount(sc.driverList, sel.drivers);
      PickedIsCount(sc.constructorList, sel.constructors);
      RetainedIsCount(sc.driverList, sel.drivers, sc.teamDrivers);
      RetainedIsCount(sc.constructorList, sel.constructors, sc.teamConstructors);
      assert sel.drivers * Elems(sc.driverList) == sel.drivers;
      assert sel.constructors * Elems(sc.constructorList) == sel.constructors;
      assert sel.drivers * Elems(sc.teamDrivers) * Elems(sc.driverList) == sel.drivers * Elems(sc.teamDrivers);
      assert sel.constructors * Elems(sc.teamConstructors) * Elems(sc.constructorList)
             == sel.constructors * Elems(sc.teamConstructors);
    }
  }

  /** The current team, as a selection. */
  function KeepTeam(sc: Scaffold): Selection {
    Selection(Elems(sc.teamDrivers), Elems(sc.teamConstructors))
  }

  /** Keeping the current team makes no moves, and it is feasible exactly when it fits the budget. */
  lemma KeepTeamMakesNoMoves(sc: Scaffold)
    requires sc.WellFormed() && Distinct(sc.teamDrivers) && Distinct(sc.teamConstructors)
    requires sc.maxMoves >= 0
    ensures Moves(sc, KeepTeam(sc)) == 0
    ensures Feasible(sc, ScaffoldConstraints(sc), KeepTeam(sc)) <==> Cost(sc, KeepTeam(sc)) <= sc.maxCost
  {
    var keep := KeepTeam(sc);
    DistinctCard(sc.teamDrivers);
    DistinctCard(sc.teamConstructors);
    RetainedIsCount(sc.driverList, keep.drivers, sc.teamDrivers);
    RetainedIsCount(sc.constructorList, keep.constructors, sc.teamConstructors);
    assert keep.drivers * Elems(sc.teamDrivers) * Elems(sc.driverList) == keep.drivers;
    assert keep.constructors * Elems(sc.teamConstructors) * Elems(sc.constructorList) == keep.constructors;
    PickedIsCount(sc.driverList, keep.drivers);
    PickedIsCount(sc.constructorList, keep.constructors);
    assert keep.drivers * Elems(sc.driverList) == keep.drivers;
    assert keep.constructors * Elems(sc.constructorList) == keep.constructors;
    FeasibleUnfold(sc, keep);
  }

  /**
   * A feasible selection under a ceiling of no moves is the current team: the
   * size equalities leave no room for any other name.
   */
  lemma NoMovesKeepsTeam(sc: Scaffold, sel: Selection)
    requires sc.WellFormed() && Distinct(sc.teamDrivers) && Distinct(sc.teamConstructors)
    requires sc.maxMoves <= 0
    requires Feasible(sc, ScaffoldConstraints(sc), sel)
    ensures sel == KeepTeam(sc)
  {
    FeasibleIff(sc, sel);
    DistinctCard(sc.teamDrivers);
    DistinctCard(sc.teamConstructors);
    var keptD := sel.drivers * Elems(sc.teamDrivers);
    var keptC := sel.constructors * Elems(sc.teamConstructors);
    SubsetCard(keptD, Elems(sc.teamDrivers));
    SubsetCard(keptC, Elems(sc.teamConstructors));
    SubsetSameCard(keptD, Elems(sc.teamDrivers));
    SubsetSameCard(keptC, Elems(sc.teamConstructors));
    SubsetSameCard(Elems(sc.teamDrivers), sel.drivers);
    SubsetSameCard(Elems(sc.teamConstructors), sel.constructors);
  }

  /** With no negative price, the cost of a selection covers the price of each selected listed name. */
  lemma {:induction false} CostCoversEachPick(list: seq<string>, chosen: set<string>, prices: map<string, real>, x: string)
    requires forall k :: k in prices ==> prices[k] >= 0.0
    requires x in chosen && x in list
    ensures PickedCost(list, chosen, prices) >= Price(prices, x)
  {
    var p := list[..|list| - 1];
    if list[|list| - 1] == x {
      PickedCostNonNegative(p, chosen, prices);
    } else {
      var k :| 0 <= k < |list| && list[k] == x;
      assert p[k] == x;
      CostCoversEachPick(p, chosen, prices, x);
    }
  }

  lemma {:induction false} PickedCostNonNegative(list: seq<string>, chosen: set<string>, prices: map<string, real>)
    requires forall k :: k in prices ==> prices[k] >= 0.0
    ensures PickedCost(list, chosen, prices) >= 0.0
  {
    if list != [] {
      PickedCostNonNegative(list[..|list| - 1], chosen, prices);
    }
  }

  /** With no negative price, a driver priced above the cost ceiling is never in a feasible selection. */
  lemma UnaffordableNeverSelected(sc: Scaffold, sel: Selection, d: string)
    requires forall k :: k in sc.prices ==> sc.prices[k] >= 0.0
    requires Price(sc.prices, d) > sc.maxCost
    requires Feasible(sc, ScaffoldConstraints(sc), sel)
    ensures d !in sel.drivers
  {
    assert TotalCostAtMost(sc.maxCost) in ScaffoldConstraints(sc);
    if d in sel.drivers {
      CostCoversEachPick(sc.driverList, sel.drivers, sc.prices, d);
      PickedCostNonNegative(sc.constructorList, sel.constructors, sc.prices);
      assert false;
    }
  }

  /**
   * Under a ceiling of one move, a feasible selection that drops team driver `d`
   * keeps every other team driver and every team constructor, and brings in
   * exactly one new driver.
   */
  lemma OneMoveReplacesOneDriver(sc: Scaffold, sel: Selection, d: string)
    requires sc.WellFormed() && Distinct(sc.teamDrivers) && Distinct(sc.teamConstructors)
    requires sc.maxMoves <= 1
    requires Feasible(sc, ScaffoldConstraints(sc), sel)
    requires d in sc.teamDrivers && d !in sel.drivers
    ensures sel.constructors == Elems(sc.teamConstructors)
    ensures sel.drivers * Elems(sc.teamDrivers) == Elems(sc.teamDrivers) - {d}
    ensures |sel.drivers - Elems(sc.teamDrivers)| == 1
  {
    FeasibleIff(sc, sel);
    DistinctCard(sc.teamDrivers);
    DistinctCard(sc.teamConstructors);
    var others := Elems(sc.teamDrivers) - {d};
    var keptD := sel.drivers * Elems(sc.teamDrivers);
    var keptC := sel.constructors * Elems(sc.teamConstructors);
    assert keptD <= others;
    SubsetCard(keptD, others);
    SubsetCard(keptC, Elems(sc.teamConstructors));
    SubsetSameCard(keptD, others);
    SubsetSameCard(keptC, Elems(sc.teamConstructors));
    SubsetSameCard(Elems(sc.teamConstructors), sel.constructors);
    assert sel.drivers == keptD + (sel.drivers - Elems(sc.teamDrivers));
  }

  // ---------------------------------------------------------------------------
  // Problems and their answers

  datatype Sense = Maximise | Minimise

  /** The objectives a strategy can set; every strategy with an objective uses `TotalCost`. */
  datatype Objective = TotalCost

  /** A problem as handed to the solver: its name, sense, objective (if any) and constraints. */
  datatype Problem = Problem(
    name: string,
    sense: Sense,
    objective: Option<Objective>,
    scaffold: Scaffold,
    constraints: seq<Constraint>)

  /** The objective's value at a selection. */
  function ObjectiveValue(p: Problem, sel: Selection): real
    requires p.objective.Some?
  {
    match p.objective.value
    case TotalCost => Cost(p.scaffold, sel)
  }

  /** What the solver promises of an answer it reports optimal. */
  ghost predicate Optimal(p: Problem, sel: Selection)
    requires p.objective.Some?
  {
    && Feasible(p.scaffold, p.constraints, sel)
    && forall other :: Feasible(p.scaffold, p.constraints, other) ==>
         if p.sense == Maximise then ObjectiveValue(p, other) <= ObjectiveValue(p, sel)
         else ObjectiveValue(p, other) >= ObjectiveValue(p, sel)
  }
}
