/**
 * Starting-team enumeration: every k-of-n choice as a 0/1 row, the cross product of
 * driver and constructor choices, the renaming of the columns to a race's line-up,
 * and the pricing of each row with the filter on the total value.
 */
module FirstPicks {
  import opened Wrappers
  import opened Text
  import opened Seasons

  /** Constructors per season; the lookup of any other season fails. */
  const F1_SEASON_CONSTRUCTORS: map<int, nat> := map[2023 := 10, 2024 := 10, 2025 := 10]

  /** The default upper bound on a starting team's total value. */
  const DEFAULT_STARTING_BUDGET: real := 100.0

  /** A 0/1 table: column names and rows of cells. */
  datatype Frame = Frame(columns: seq<string>, rows: seq<seq<int>>)

  datatype FirstPicksError =
    | UnknownSeason(season: int)
    | ShapeMismatch(columns: nat, lineUp: nat)

  // ---------------------------------------------------------------------------
  // k-of-n choices in the order of `itertools.combinations`

  predicate Increasing(c: seq<int>) {
    forall i, j :: 0 <= i < j < |c| ==> c[i] < c[j]
  }

  /** A choice of `k` indices from `lo..n-1`, in increasing order. */
  predicate ChoiceOf(c: seq<int>, lo: int, n: int, k: nat) {
    |c| == k && Increasing(c) && forall x :: x in c ==> lo <= x < n
  }

  /** `x` put in front of every choice. */
  function Prepend(x: int, cs: seq<seq<int>>): (r: seq<seq<int>>)
    ensures |r| == |cs| && forall i :: 0 <= i < |cs| ==> r[i] == [x] + cs[i]
  {
    seq(|cs|, i requires 0 <= i < |cs| => [x] + cs[i])
  }

  /**
   * `itertools.combinations(range(lo, n), k)`: the choices that take `lo` first,
   * then the ones that skip it.
   */
  function Combos(lo: nat, n: nat, k: nat): (cs: seq<seq<int>>)
    ensures forall i :: 0 <= i < |cs| ==> ChoiceOf(cs[i], lo, n, k)
    decreases n - lo, k
  {
    if k == 0 then [[]]
    else if lo >= n then []
    else
      var first := Combos(lo + 1, n, k - 1);
      var rest := Combos(lo + 1, n, k);
      var taken := Prepend(lo, first);
      assert forall i :: 0 <= i < |taken| ==> ChoiceOf(taken[i], lo, n, k) by {
        forall i | 0 <= i < |taken| ensures ChoiceOf(taken[i], lo, n, k) {
          assert taken[i] == [lo] + first[i];
          assert forall t :: 1 <= t < |taken[i]| ==> taken[i][t] == first[i][t - 1];
          assert forall t :: 0 <= t < |first[i]| ==> first[i][t] in first[i];
        }
      }
      taken + rest
  }

  /** The binomial coefficient, by Pascal's rule. */
  function Binomial(m: nat, k: nat): nat {
    if k == 0 then 1 else if m == 0 then 0 else Binomial(m - 1, k - 1) + Binomial(m - 1, k)
  }

  /** There are C(n - lo, k) choices. */
  lemma {:induction false} CombosCount(lo: nat, n: nat, k: nat)
    ensures |Combos(lo, n, k)| == Binomial(if lo <= n then n - lo else 0, k)
    decreases n - lo, k
  {
    if k != 0 && lo < n {
      CombosCount(lo + 1, n, k - 1);
      CombosCount(lo + 1, n, k);
    }
  }

  /** Strict lexicographic order on index sequences. */
  predicate LexLess(a: seq<int>, b: seq<int>) {
    |a| > 0 && |b| > 0 && (a[0] < b[0] || (a[0] == b[0] && LexLess(a[1..], b[1..])))
  }

  lemma {:induction false} LexLessIrreflexive(a: seq<int>)
    ensures !LexLess(a, a)
  {
    if |a| > 0 {
      LexLessIrreflexive(a[1..]);
    }
  }

  /** The choices come in strictly increasing lexicographic order. */
  lemma {:induction false} CombosLexOrdered(lo: nat, n: nat, k: nat)
    ensures forall i, j :: 0 <= i < j < |Combos(lo, n, k)| ==> LexLess(Combos(lo, n, k)[i], Combos(lo, n, k)[j])
    decreases n - lo, k
  {
    if k != 0 && lo < n {
      var first := Combos(lo + 1, n, k - 1);
      var rest := Combos(lo + 1, n, k);
      var taken := Prepend(lo, first);
      var cs := Combos(lo, n, k);
      assert cs == taken + rest;
      CombosLexOrdered(lo + 1, n, k - 1);
      CombosLexOrdered(lo + 1, n, k);
      forall i, j | 0 <= i < j < |cs| ensures LexLess(cs[i], cs[j]) {
        if j < |taken| {
          assert cs[i] == [lo] + first[i] && cs[j] == [lo] + first[j];
          assert cs[i][1..] == first[i] && cs[j][1..] == first[j];
        } else if i < |taken| {
          assert cs[i][0] == lo;
          assert cs[j] == rest[j - |taken|];
          assert cs[j][0] in rest[j - |taken|];
        } else {
          assert cs[i] == rest[i - |taken|] && cs[j] == rest[j - |taken|];
        }
      }
    }
  }

  /** The choices are pairwise distinct. */
  lemma CombosDistinct(lo: nat, n: nat, k: nat)
    ensures forall i, j :: 0 <= i < j < |Combos(lo, n, k)| ==> Combos(lo, n, k)[i] != Combos(lo, n, k)[j]
  {
    CombosLexOrdered(lo, n, k);
    forall i, j | 0 <= i < j < |Combos(lo, n, k)| ensures Combos(lo, n, k)[i] != Combos(lo, n, k)[j] {
      LexLessIrreflexive(Combos(lo, n, k)[i]);
    }
  }

  // ---------------------------------------------------------------------------
  // 0/1 rows

  /** The 0/1 row of length `n` with a 1 exactly at the chosen indices. */
  function Indicator(n: nat, c: seq<int>): (row: seq<int>)
    ensures |row| == n
  {
    seq(n, i requires 0 <= i < n => if i in c then 1 else 0)
  }

  /** One row per choice, in order. */
  function Indicators(n: nat, cs: seq<seq<int>>): (rows: seq<seq<int>>)
    ensures |rows| == |cs|
  {
    seq(|cs|, r requires 0 <= r < |cs| => Indicator(n, cs[r]))
  }

  /** The number of cells equal to 1. */
  function Ones(row: seq<int>): nat {
    if row == [] then 0 else Ones(row[..|row| - 1]) + if row[|row| - 1] == 1 then 1 else 0
  }

  /** An increasing sequence of non-negative indices has its `i`-th entry at least `i`. */
  lemma {:induction false} IncreasingLowerBound(c: seq<int>, i: nat)
    requires Increasing(c) && (forall x :: x in c ==> 0 <= x) && i < |c|
    ensures c[i] >= i
  {
    if i == 0 {
      assert c[0] in c;
    } else {
      IncreasingLowerBound(c, i - 1);
    }
  }

  /** A choice of distinct indices below `n` has at most `n` entries. */
  lemma ChoiceFits(c: seq<int>, n: nat)
    requires Increasing(c) && forall x :: x in c ==> 0 <= x < n
    ensures |c| <= n
  {
    if |c| > 0 {
      IncreasingLowerBound(c, |c| - 1);
      assert c[|c| - 1] in c;
      assert c[|c| - 1] < n;
    }
  }

  /** A row built from a choice of `k` indices holds exactly `k` ones. */
  lemma {:induction false} IndicatorOnes(n: nat, c: seq<int>)
    requires Increasing(c) && forall x :: x in c ==> 0 <= x < n
    ensures Ones(Indicator(n, c)) == |c|
  {
    if n > 0 {
      var p := DropTop(n, c);
      IndicatorOnes(n - 1, p);
      var row := Indicator(n, c);
      assert row[..n - 1] == Indicator(n - 1, p);
      assert Ones(row) == Ones(row[..n - 1]) + if row[n - 1] == 1 then 1 else 0;
    } else {
      ChoiceFits(c, n);
    }
  }

  /** A choice below `n` less its index `n - 1`, if chosen: a choice below `n - 1`. */
  lemma DropTop(n: nat, c: seq<int>) returns (p: seq<int>)
    requires n > 0 && Increasing(c) && forall x :: x in c ==> 0 <= x < n
    ensures Increasing(p) && forall x :: x in p ==> 0 <= x < n - 1
    ensures forall x :: x in p <==> x in c && x != n - 1
    ensures |c| == |p| + if n - 1 in c then 1 else 0
  {
    if |c| > 0 && c[|c| - 1] == n - 1 {
      p := c[..|c| - 1];
      assert c == p + [n - 1];
      forall x | x in p ensures 0 <= x < n - 1 {
        var t :| 0 <= t < |p| && p[t] == x;
        assert c[t] in c && c[t] < c[|c| - 1];
      }
      assert n - 1 !in p;
    } else {
      p := c;
      forall x | x in c ensures x < n - 1 {
        var t :| 0 <= t < |c| && c[t] == x;
        assert c[|c| - 1] in c;
        assert t < |c| - 1 ==> c[t] < c[|c| - 1];
      }
      assert n - 1 !in c;
    }
  }

  /** A non-empty sequence holds its first element. */
  lemma HeadMember(b: seq<int>)
    ensures b == [] || b[0] in b
  {
  }

  /** Two increasing sequences with the same elements are equal. */
  lemma {:induction false} IncreasingByElements(a: seq<int>, b: seq<int>)
    requires Increasing(a) && Increasing(b)
    requires forall x :: x in a <==> x in b
    ensures a == b
    decreases |a|
  {
    HeadMember(a);
    HeadMember(b);
    if |a| > 0 && |b| > 0 {
      SameHead(a, b);
      TailIn(a, b);
      TailIn(b, a);
      IncreasingByElements(a[1..], b[1..]);
      assert a == [a[0]] + a[1..] && b == [b[0]] + b[1..];
    }
  }

  /** Increasing sequences with the same elements start alike. */
  lemma SameHead(a: seq<int>, b: seq<int>)
    requires Increasing(a) && Increasing(b) && |a| > 0 && |b| > 0
    requires forall x :: x in a <==> x in b
    ensures a[0] == b[0]
  {
    assert a[0] in a && b[0] in b;
    var s :| 0 <= s < |b| && b[s] == a[0];
    var t :| 0 <= t < |a| && a[t] == b[0];
    assert a[0] <= a[t] && b[0] <= b[s];
  }

  /** Past a shared head, the rest of one increasing sequence lies in the rest of the other. */
  lemma TailIn(a: seq<int>, b: seq<int>)
    requires Increasing(a) && Increasing(b) && |a| > 0 && |b| > 0 && a[0] == b[0]
    requires forall x :: x in a ==> x in b
    ensures forall x :: x in a[1..] ==> x in b[1..]
  {
    forall x | x in a[1..] ensures x in b[1..] {
      var u :| 1 <= u < |a| && a[u] == x;
      assert a[0] < a[u] && a[u] in a;
      var v :| 0 <= v < |b| && b[v] == x;
      assert v != 0;
      assert b[1..][v - 1] == x;
    }
  }

  /** Different choices give different rows. */
  lemma IndicatorInjective(n: nat, a: seq<int>, b: seq<int>)
    requires Increasing(a) && Increasing(b)
    requires forall x :: x in a ==> 0 <= x < n
    requires forall x :: x in b ==> 0 <= x < n
    requires Indicator(n, a) == Indicator(n, b)
    ensures a == b
  {
    forall x ensures x in a <==> x in b {
      if x in a { assert Indicator(n, a)[x] == 1; }
      if x in b { assert Indicator(n, b)[x] == 1; }
    }
    IncreasingByElements(a, b);
  }

  /** `prefix1`, `prefix2`, ... up to `n`. */
  function ColumnNames(prefix: string, n: nat): (names: seq<string>)
    ensures |names| == n
  {
    seq(n, i requires 0 <= i < n => prefix + NatToString(i + 1))
  }

  /** The generated column names are all different. */
  lemma ColumnNamesDistinct(prefix: string, n: nat)
    ensures Distinct(ColumnNames(prefix, n))
  {
    var names := ColumnNames(prefix, n);
    forall i, j | 0 <= i < j < n ensures names[i] != names[j] {
      if names[i] == names[j] {
        assert names[i][|prefix|..] == NatToString(i + 1);
        assert names[j][|prefix|..] == NatToString(j + 1);
        NatToStringInjective(i + 1, j + 1);
      }
    }
  }

  /**
   * `get_all_combinations`: one 0/1 row of length `numTotal` per choice of
   * `numAllowed` indices, in `itertools.combinations` order, and the columns
   * `colPrefix` followed by 1 to `numTotal`. There are C(numTotal, numAllowed) rows,
   * each with exactly `numAllowed` ones, no two alike.
   */
  method GetAllCombinations(numTotal: nat, numAllowed: nat, colPrefix: string) returns (f: Frame)
    ensures f.columns == ColumnNames(colPrefix, numTotal) && Distinct(f.columns)
    ensures f.rows == Indicators(numTotal, Combos(0, numTotal, numAllowed))
    ensures |f.rows| == Binomial(numTotal, numAllowed)
    ensures forall r :: 0 <= r < |f.rows| ==> |f.rows[r]| == numTotal && Ones(f.rows[r]) == numAllowed
    ensures forall r, s :: 0 <= r < s < |f.rows| ==> f.rows[r] != f.rows[s]
  {
    var combos := Combos(0, numTotal, numAllowed);
    var rows: seq<seq<int>> := [];
    for c := 0 to |combos|
      invariant rows == Indicators(numTotal, combos[..c])
    {
      var row := new int[numTotal](_ => 0);
      var comb := combos[c];
      for t := 0 to |comb|
        invariant forall i :: 0 <= i < numTotal ==> row[i] == if i in comb[..t] then 1 else 0
      {
        assert comb[..t + 1] == comb[..t] + [comb[t]];
        assert comb[t] in comb;
        row[comb[t]] := 1;
      }
      assert comb[..|comb|] == comb;
      assert row[..] == Indicator(numTotal, comb);
      rows := rows + [row[..]];
    }
    assert combos[..|combos|] == combos;
    var cols: seq<string> := [];
    for i := 0 to numTotal
      invariant cols == ColumnNames(colPrefix, i)
    {
      cols := cols + [colPrefix + NatToString(i + 1)];
    }
    f := Frame(cols, rows);
    ColumnNamesDistinct(colPrefix, numTotal);
    CombosCount(0, numTotal, numAllowed);
    CombosDistinct(0, numTotal, numAllowed);
    forall r | 0 <= r < |rows| ensures Ones(rows[r]) == numAllowed {
      IndicatorOnes(numTotal, combos[r]);
    }
    forall r, s | 0 <= r < s < |rows| ensures rows[r] != rows[s] {
      if rows[r] == rows[s] {
        IndicatorInjective(numTotal, combos[r], combos[s]);
      }
    }
  }

  // ---------------------------------------------------------------------------
  // Team combinations

  /** pandas' cross merge: every left row joined to every right row, left-major. */
  function CrossJoin(a: seq<seq<int>>, b: seq<seq<int>>): seq<seq<int>> {
    if a == [] then [] else seq(|b|, j requires 0 <= j < |b| => a[0] + b[j]) + CrossJoin(a[1..], b)
  }

  /** The cross product has one row per pair. */
  lemma {:induction false} CrossJoinLength(a: seq<seq<int>>, b: seq<seq<int>>)
    ensures |CrossJoin(a, b)| == |a| * |b|
  {
    if a != [] {
      CrossJoinLength(a[1..], b);
      MulSucc(|a| - 1, |b|);
    }
  }

  lemma MulSucc(x: nat, y: nat)
    ensures (x + 1) * y == y + x * y
  {
  }

  /** The cross product has one row per pair, the pair (i, j) at index i * |b| + j. */
  lemma {:induction false} CrossJoinAt(a: seq<seq<int>>, b: seq<seq<int>>, i: nat, j: nat)
    requires i < |a| && j < |b|
    ensures |CrossJoin(a, b)| == |a| * |b|
    ensures i * |b| + j < |CrossJoin(a, b)| && CrossJoin(a, b)[i * |b| + j] == a[i] + b[j]
  {
    CrossJoinLength(a, b);
    var head := seq(|b|, k requires 0 <= k < |b| => a[0] + b[k]);
    var rest := CrossJoin(a[1..], b);
    assert CrossJoin(a, b) == head + rest;
    if i == 0 {
      assert (head + rest)[j] == head[j];
    } else {
      CrossJoinAt(a[1..], b, i - 1, j);
      MulSucc(i - 1, |b|);
      var k := (i - 1) * |b| + j;
      assert a[1..][i - 1] == a[i];
      assert i * |b| + j == |b| + k;
      assert (head + rest)[|b| + k] == rest[k];
    }
  }

  /**
   * `get_all_team_combinations`: the season's constructor count (the lookup fails
   * for an unknown season), that many times `driversPerConstructor` drivers, the
   * driver choices with columns D1.. and the constructor choices with columns C1..,
   * crossed.
   */
  method GetAllTeamCombinations(seasonYear: int, driversPerConstructor: nat, numDriversTeam: nat,
                                numConstructorsTeam: nat)
    returns (r: Result<Frame, FirstPicksError>)
    ensures r.Err? <==> seasonYear !in F1_SEASON_CONSTRUCTORS
    ensures r.Err? ==> r.error == UnknownSeason(seasonYear)
    ensures r.Ok? ==>
              var nc := F1_SEASON_CONSTRUCTORS[seasonYear];
              var nd := nc * driversPerConstructor;
              && r.value.columns == ColumnNames("D", nd) + ColumnNames("C", nc)
              && r.value.rows == CrossJoin(Indicators(nd, Combos(0, nd, numDriversTeam)),
                                           Indicators(nc, Combos(0, nc, numConstructorsTeam)))
  {
    if seasonYear !in F1_SEASON_CONSTRUCTORS {
      return Err(UnknownSeason(seasonYear));
    }
    var numConstructorsTotal := F1_SEASON_CONSTRUCTORS[seasonYear];
    var numDriversTotal := numConstructorsTotal * driversPerConstructor;
    var drivers := GetAllCombinations(numDriversTotal, numDriversTeam, "D");
    var constructors := GetAllCombinations(numConstructorsTotal, numConstructorsTeam, "C");
    r := Ok(Frame(drivers.columns + constructors.columns, CrossJoin(drivers.rows, constructors.rows)));
  }

  /**
   * `set_combination_assets`: the columns renamed to the race's drivers followed by
   * its constructors, the rows untouched; a column count other than the size of the
   * line-up is refused.
   */
  function SetCombinationAssets(f: Frame, race: Race): (r: Result<Frame, FirstPicksError>)
    ensures r.Ok? <==> |f.columns| == |race.driverOrder| + |race.constructorOrder|
    ensures r.Ok? ==> && r.value.rows == f.rows && |r.value.columns| == |f.columns|
                      && r.value.columns[..|race.driverOrder|] == race.driverOrder
                      && r.value.columns[|race.driverOrder|..] == race.constructorOrder
    ensures r.Err? ==> r.error == ShapeMismatch(|f.columns|, |race.driverOrder| + |race.constructorOrder|)
  {
    var lineUp := |race.driverOrder| + |race.constructorOrder|;
    if lineUp != |f.columns| then Err(ShapeMismatch(|f.columns|, lineUp))
    else Ok(Frame(race.driverOrder + race.constructorOrder, f.rows))
  }

  // ---------------------------------------------------------------------------
  // Pricing and the budget window

  /** The price of each column: the drivers', then the constructors', in key order. */
  function ColumnPrices(race: Race): (prices: seq<real>)
    requires race.WellFormed()
    ensures |prices| == |race.driverOrder| + |race.constructorOrder|
  {
    seq(|race.driverOrder|, i requires 0 <= i < |race.driverOrder| => race.drivers[race.driverOrder[i]].price)
    + seq(|race.constructorOrder|, i requires 0 <= i < |race.constructorOrder| =>
            race.constructors[race.constructorOrder[i]].price)
  }

  /** A cell after `replace(1, price)` and then `replace(0, NaN)`; NaN is `None`. */
  function PriceCell(v: int, price: real): (cell: Option<real>)
    ensures v == 1 && price != 0.0 ==> cell == Some(price)
    ensures v == 0 ==> cell.None?
  {
    var x := if v == 1 then price else v as real;
    if x == 0.0 then None else Some(x)
  }

  predicate Rectangular(rows: seq<seq<int>>, width: nat) {
    forall r :: 0 <= r < |rows| ==> |rows[r]| == width
  }

  /** The table with its first `done` columns priced and the others still holding their 0/1 values. */
  function PartlyPriced(rows: seq<seq<int>>, prices: seq<real>, done: nat): seq<seq<Option<real>>>
    requires Rectangular(rows, |prices|)
  {
    seq(|rows|, r requires 0 <= r < |rows| =>
      seq(|prices|, j requires 0 <= j < |prices| =>
        if j < done then PriceCell(rows[r][j], prices[j]) else Some(rows[r][j] as real)))
  }

  /** The whole table priced. */
  function PricedRows(rows: seq<seq<int>>, prices: seq<real>): seq<seq<Option<real>>>
    requires Rectangular(rows, |prices|)
  {
    PartlyPriced(rows, prices, |prices|)
  }

  /** Pricing one more column of the table. */
  function PriceColumn(cells: seq<seq<Option<real>>>, rows: seq<seq<int>>, j: nat, price: real): seq<seq<Option<real>>>
    requires |cells| == |rows|
    requires forall r :: 0 <= r < |rows| ==> j < |rows[r]| && j < |cells[r]|
  {
    seq(|cells|, r requires 0 <= r < |cells| => cells[r][j := PriceCell(rows[r][j], price)])
  }

  lemma PriceColumnStep(rows: seq<seq<int>>, prices: seq<real>, done: nat)
    requires Rectangular(rows, |prices|) && done < |prices|
    ensures PriceColumn(PartlyPriced(rows, prices, done), rows, done, prices[done])
            == PartlyPriced(rows, prices, done + 1)
  {
    var before := PartlyPriced(rows, prices, done);
    var after := PriceColumn(before, rows, done, prices[done]);
    var want := PartlyPriced(rows, prices, done + 1);
    assert |after| == |want|;
    forall r | 0 <= r < |after| ensures after[r] == want[r] {
      assert |after[r]| == |want[r]|;
      forall j | 0 <= j < |after[r]| ensures after[r][j] == want[r][j] {
        if j != done {
          assert after[r][j] == before[r][j];
        }
      }
    }
  }

  /**
   * The two pricing loops of `get_starting_combinations`: each driver's column, then
   * each constructor's, has its 1s replaced by the asset's price and its 0s by NaN.
   */
  method PriceCombinations(race: Race, f: Frame) returns (cells: seq<seq<Option<real>>>)
    requires race.WellFormed()
    requires f.columns == race.driverOrder + race.constructorOrder
    requires Rectangular(f.rows, |f.columns|)
    ensures Rectangular(f.rows, |ColumnPrices(race)|)
    ensures cells == PricedRows(f.rows, ColumnPrices(race))
  {
    cells := PriceDriverColumns(race, f.rows);
    cells := PriceConstructorColumns(race, f.rows, cells);
  }

  /** The drivers' pricing loop: the first `|driverOrder|` columns get their drivers' prices. */
  method PriceDriverColumns(race: Race, rows: seq<seq<int>>) returns (cells: seq<seq<Option<real>>>)
    requires race.WellFormed()
    requires Rectangular(rows, |ColumnPrices(race)|)
    ensures cells == PartlyPriced(rows, ColumnPrices(race), |race.driverOrder|)
  {
    var prices := ColumnPrices(race);
    cells := PartlyPriced(rows, prices, 0);
    for t := 0 to |race.driverOrder|
      invariant cells == PartlyPriced(rows, prices, t)
    {
      PriceColumnStep(rows, prices, t);
      assert prices[t] == race.drivers[race.driverOrder[t]].price;
      cells := PriceColumn(cells, rows, t, race.drivers[race.driverOrder[t]].price);
    }
  }

  /** The constructors' pricing loop: the remaining columns get their constructors' prices. */
  method PriceConstructorColumns(race: Race, rows: seq<seq<int>>, cells0: seq<seq<Option<real>>>)
    returns (cells: seq<seq<Option<real>>>)
    requires race.WellFormed()
    requires Rectangular(rows, |ColumnPrices(race)|)
    requires cells0 == PartlyPriced(rows, ColumnPrices(race), |race.driverOrder|)
    ensures cells == PricedRows(rows, ColumnPrices(race))
  {
    var prices := ColumnPrices(race);
    var nd := |race.driverOrder|;
    cells := cells0;
    for t := 0 to |race.constructorOrder|
      invariant cells == PartlyPriced(rows, prices, nd + t)
    {
      PriceColumnStep(rows, prices, nd + t);
      assert prices[nd + t] == race.constructors[race.constructorOrder[t]].price;
      cells := PriceColumn(cells, rows, nd + t, race.constructors[race.constructorOrder[t]].price);
    }
  }

  /** `sum(axis=1)`, which skips NaN cells. */
  function RowTotal(cells: seq<Option<real>>): real {
    if cells == [] then 0.0
    else RowTotal(cells[..|cells| - 1]) + match cells[|cells| - 1] case Some(x) => x case None => 0.0
  }

  /** The prices of the columns holding a 1. */
  function SelectedValue(row: seq<int>, prices: seq<real>): real
    requires |row| == |prices|
  {
    if row == [] then 0.0
    else SelectedValue(row[..|row| - 1], prices[..|prices| - 1]) + if row[|row| - 1] == 1 then prices[|prices| - 1] else 0.0
  }

  predicate ZeroOne(row: seq<int>) {
    forall j :: 0 <= j < |row| ==> row[j] == 0 || row[j] == 1
  }

  /** On a 0/1 row, the priced row's total is the sum of the chosen assets' prices. */
  lemma {:induction false} RowTotalIsSelectedValue(row: seq<int>, prices: seq<real>)
    requires |row| == |prices| && ZeroOne(row)
    ensures RowTotal(seq(|row|, j requires 0 <= j < |row| => PriceCell(row[j], prices[j])))
            == SelectedValue(row, prices)
  {
    var cells := seq(|row|, j requires 0 <= j < |row| => PriceCell(row[j], prices[j]));
    if row != [] {
      var p := row[..|row| - 1];
      var q := prices[..|prices| - 1];
      RowTotalIsSelectedValue(p, q);
      assert cells[..|cells| - 1] == seq(|p|, j requires 0 <= j < |p| => PriceCell(p[j], q[j]));
    }
  }

  /** A priced row and its total value. */
  datatype StartingRow = StartingRow(cells: seq<Option<real>>, totalValue: real)

  /** The rows whose total lies in (`minTotalValue`, `maxTotalValue`], in table order. */
  function InWindow(rows: seq<seq<Option<real>>>, minTotalValue: real, maxTotalValue: real): (kept: seq<StartingRow>)
    ensures forall s :: s in kept <==> && s.cells in rows && s.totalValue == RowTotal(s.cells)
                                       && minTotalValue < s.totalValue <= maxTotalValue
    ensures |kept| <= |rows|
  {
    if rows == [] then []
    else
      var total := RowTotal(rows[0]);
      var rest := InWindow(rows[1..], minTotalValue, maxTotalValue);
      assert forall c :: c in rows <==> c == rows[0] || c in rows[1..];
      if minTotalValue < total <= maxTotalValue then [StartingRow(rows[0], total)] + rest else rest
  }

  /**
   * The pricing and filter part of `get_starting_combinations`: the columns renamed
   * to the race's line-up (a count mismatch is refused), every row priced, and the
   * rows whose total value lies in (`minTotalValue`, `maxTotalValue`] kept in order.
   */
  method GetStartingCombinations(race: Race, combinations: Frame, minTotalValue: real, maxTotalValue: real)
    returns (r: Result<seq<StartingRow>, FirstPicksError>)
    requires race.WellFormed()
    requires Distinct(race.driverOrder + race.constructorOrder)
    requires Rectangular(combinations.rows, |combinations.columns|)
    ensures r.Err? <==> |combinations.columns| != |race.driverOrder| + |race.constructorOrder|
    ensures r.Ok? ==> && Rectangular(combinations.rows, |ColumnPrices(race)|)
                      && r.value == InWindow(PricedRows(combinations.rows, ColumnPrices(race)),
                                             minTotalValue, maxTotalValue)
  {
    var named := SetCombinationAssets(combinations, race);
    if named.Err? {
      return Err(named.error);
    }
    assert named.value.columns == race.driverOrder + race.constructorOrder;
    var cells := PriceCombinations(race, named.value);
    r := Ok(InWindow(cells, minTotalValue, maxTotalValue));
  }

  /**
   * Every row kept from a 0/1 table has as total value the sum of the prices of
   * the drivers and constructors it chooses, and lies in the window.
   */
  lemma StartingRowsAreChosenPrices(rows: seq<seq<int>>, prices: seq<real>, minTotalValue: real,
                                    maxTotalValue: real, s: StartingRow)
    requires Rectangular(rows, |prices|) && forall r :: 0 <= r < |rows| ==> ZeroOne(rows[r])
    requires s in InWindow(PricedRows(rows, prices), minTotalValue, maxTotalValue)
    ensures exists r :: 0 <= r < |rows| && s.cells == PricedRows(rows, prices)[r]
                        && s.totalValue == SelectedValue(rows[r], prices)
    ensures minTotalValue < s.totalValue <= maxTotalValue
  {
    var priced := PricedRows(rows, prices);
    var r :| 0 <= r < |priced| && priced[r] == s.cells;
    assert priced[r] == seq(|rows[r]|, j requires 0 <= j < |rows[r]| => PriceCell(rows[r][j], prices[j]));
    RowTotalIsSelectedValue(rows[r], prices);
  }

  /** Ten assets taken three at a time give 120 rows. */
  lemma TenChooseThree()
    ensures Binomial(10, 3) == 120
  {
    forall m: nat | m <= 9 ensures Binomial(m, 1) == m {
      BinomialOne(m);
    }
    assert Binomial(1, 2) == 0 && Binomial(2, 3) == 0;
    assert Binomial(2, 2) == 1 && Binomial(3, 2) == 3 && Binomial(4, 2) == 6 && Binomial(5, 2) == 10;
    assert Binomial(6, 2) == 15 && Binomial(7, 2) == 21 && Binomial(8, 2) == 28 && Binomial(9, 2) == 36;
    assert Binomial(3, 3) == 1 && Binomial(4, 3) == 4 && Binomial(5, 3) == 10 && Binomial(6, 3) == 20;
    assert Binomial(7, 3) == 35 && Binomial(8, 3) == 56 && Binomial(9, 3) == 84;
  }

  /** Choosing one of `m` can be done `m` ways. */
  lemma {:induction false} BinomialOne(m: nat)
    ensures Binomial(m, 1) == m
  {
    if m > 0 {
      BinomialOne(m - 1);
    }
  }
}
