/**
 * The zero-stop strategy: it allows only as many moves as there are team drivers
 * no longer available, and otherwise maximises the total cost like the budget
 * strategy.
 */
module StrategyZeroStop {
  import opened Wrappers
  import opened Text
  import opened Lp
  import opened StrategyBudget

  /** The team drivers not among the available drivers, in team order. */
  function Unavailable(team: seq<string>, available: seq<string>): (u: seq<string>)
    ensures |u| <= |team|
  {
    if team == [] then []
    else
      var p := team[..|team| - 1];
      var d := team[|team| - 1];
      Unavailable(p, available) + if d !in available then [d] else []
  }

  /** The unavailable drivers are exactly the team drivers missing from the available ones. */
  lemma {:induction false} UnavailableMembers(team: seq<string>, available: seq<string>)
    ensures forall d :: d in Unavailable(team, available) <==> d in team && d !in available
  {
    if team != [] {
      var p := team[..|team| - 1];
      UnavailableMembers(p, available);
      assert team == p + [team[|team| - 1]];
    }
  }

  /** When every team driver is still available there is nothing to replace. */
  lemma {:induction false} NoneUnavailable(team: seq<string>, available: seq<string>)
    requires forall d :: d in team ==> d in available
    ensures Unavailable(team, available) == []
  {
    if team != [] {
      NoneUnavailable(team[..|team| - 1], available);
    }
  }

  /**
   * The counting loop of `StrategyZeroStop.__init__`: the number of team drivers
   * no longer available; 0 exactly when every team driver is available.
   */
  method CountUnavailableDrivers(team: seq<string>, available: seq<string>) returns (n: nat)
    ensures n == |Unavailable(team, available)|
    ensures n <= |team|
    ensures n == 0 <==> forall d :: d in team ==> d in available
  {
    n := 0;
    var i := 0;
    while i < |team|
      invariant 0 <= i <= |team|
      invariant n == |Unavailable(team[..i], available)|
    {
      UnavailableSnoc(team, available, i);
      if team[i] !in available {
        n := n + 1;
      }
      i := i + 1;
    }
    assert team[..i] == team;
    AllAvailable(team, available);
  }

  /** One more team driver adds itself to the unavailable ones, or nothing. */
  lemma UnavailableSnoc(team: seq<string>, available: seq<string>, i: nat)
    requires i < |team|
    ensures |Unavailable(team[..i + 1], available)|
            == |Unavailable(team[..i], available)| + if team[i] !in available then 1 else 0
  {
    assert team[..i + 1][..i] == team[..i];
  }

  /** Nothing is unavailable exactly when every team driver is available. */
  lemma AllAvailable(team: seq<string>, available: seq<string>)
    ensures |Unavailable(team, available)| == 0 <==> forall d :: d in team ==> d in available
  {
    var u := Unavailable(team, available);
    UnavailableMembers(team, available);
    if u != [] {
      assert u[0] in u;
    }
  }

  /** `StrategyZeroStop.get_problem`: maximise `TotalCost`, exactly as the budget strategy does. */
  function ZeroStopProblem(sc: Scaffold): (p: Problem)
    ensures p.(name := "StrategyMaxBudget") == MaxBudgetProblem(sc)
  {
    Problem("StrategyZeroStop", Maximise, Some(TotalCost), sc, [])
  }
}
