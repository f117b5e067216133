/**
 * The betting-odds parser of the odds strategy: a string "A/B", "A:B" or "A-B"
 * becomes the implied probability B/A.
 */
module StrategyOdds {
  import opened Wrappers
  import opened Text

  /** `ValueError` raised by `odds_to_pct` (InvalidInput) or by `int()` (InvalidLiteral). */
  datatype OddsError = InvalidInput(odds: string) | InvalidLiteral(piece: string)

  /** ':' and '-' are both rewritten to '/'. */
  function Normalise(odds: string): (n: string)
    ensures |n| == |odds|
    ensures ':' !in n && '-' !in n
    ensures forall i :: 0 <= i < |odds| ==> n[i] == (if odds[i] == ':' || odds[i] == '-' then '/' else odds[i])
  {
    Replace(Replace(odds, ':', '/'), '-', '/')
  }

  /** `1 / (left / right)`, which in exact arithmetic is right / left. */
  function Ratio(left: nat, right: nat): (q: real)
    requires 0 < right <= left
    ensures 0.0 < q <= 1.0
    ensures q * left as real == right as real
  {
    var q := right as real / left as real;
    assert q * left as real == right as real;
    assert q <= 1.0 by {
      if q > 1.0 {
        assert q * left as real > 1.0 * left as real;
      }
    }
    q
  }

  /** `odds_to_pct`: the probability implied by fractional odds. */
  function OddsToPct(odds: string): (r: Result<real, OddsError>)
    ensures r.Ok? ==> 0.0 < r.value <= 1.0
    ensures r.Ok? ==> Count(Normalise(odds), '/') == 1
  {
    var n := Normalise(odds);
    if Count(n, '/') != 1 then Err(InvalidInput(n))
    else
      var parts := Split(n, '/');
      if |parts| != 2 then Err(InvalidInput(n))
      else
        match (ParseNat(parts[0]), ParseNat(parts[1]))
        case (None, _) => Err(InvalidLiteral(parts[0]))
        case (_, None) => Err(InvalidLiteral(parts[1]))
        case (Some(left), Some(right)) =>
          if right > left then Err(InvalidInput(n))
          else if right == 0 || left == 0 then Err(InvalidInput(n))
          else Ok(Ratio(left, right))
  }

  /** The reference meaning of well-formed odds: reject an underdog-first or zero pair, else B/A. */
  function ImpliedProbability(left: nat, right: nat, n: string): Result<real, OddsError> {
    if right > left || right == 0 then Err(InvalidInput(n))
    else Ok(Ratio(left, right))
  }

  lemma NormaliseDigits(s: string)
    requires forall i :: 0 <= i < |s| ==> IsDigit(s[i]) || s[i] == '/'
    ensures Normalise(s) == s
  {
  }

  /** Normalising distributes over concatenation. */
  lemma NormaliseConcat(a: string, b: string)
    ensures Normalise(a + b) == Normalise(a) + Normalise(b)
  {
  }

  /**
   * Two digit runs around a '/' parse as the reference says: the right value may not
   * exceed the left, neither may be zero, and the result is right/left.
   */
  lemma {:induction false} OddsOfDigits(a: string, b: string)
    requires IsDigits(a) && IsDigits(b)
    ensures OddsToPct(a + "/" + b) == ImpliedProbability(DigitsValue(a), DigitsValue(b), a + "/" + b)
  {
    var s := a + "/" + b;
    assert s == a + ['/'] + b;
    NormaliseDigits(s);
    assert '/' !in a && '/' !in b by {
      assert forall i :: 0 <= i < |a| ==> IsDigit(a[i]);
      assert forall i :: 0 <= i < |b| ==> IsDigit(b[i]);
    }
    SplitAround(a, '/', b);
    assert Count(s, '/') == 1 by { assert |Split(s, '/')| == 2; }
  }

  /** Printing two numbers as odds and parsing them back gives right/left, or the rejection. */
  lemma OddsRoundTrip(left: nat, right: nat)
    ensures var s := NatToString(left) + "/" + NatToString(right);
            OddsToPct(s) == ImpliedProbability(left, right, s)
  {
    ParseNatToString(left);
    ParseNatToString(right);
    OddsOfDigits(NatToString(left), NatToString(right));
  }

  /** "A:B", "A-B" and "A/B" are the same odds. */
  lemma {:induction false} SeparatorsEquivalent(a: string, b: string, sep: char)
    requires sep == ':' || sep == '-'
    ensures OddsToPct(a + [sep] + b) == OddsToPct(a + "/" + b)
  {
    NormaliseConcat(a + [sep], b);
    NormaliseConcat(a, [sep]);
    NormaliseConcat(a + "/", b);
    NormaliseConcat(a, "/");
    assert Normalise([sep]) == "/";
    assert Normalise("/") == "/";
    SameNormalForm(a + [sep] + b, a + "/" + b);
  }

  /** Odds with the same normal form have the same result. */
  lemma SameNormalForm(x: string, y: string)
    requires Normalise(x) == Normalise(y)
    ensures OddsToPct(x) == OddsToPct(y)
  {
  }

  /** A side that is not a run of digits is rejected by `int()`. */
  lemma {:induction false} OddsNeedDigits(a: string, b: string)
    requires '/' !in a && '/' !in b && ':' !in a && ':' !in b && '-' !in a && '-' !in b
    requires !IsDigits(a) || !IsDigits(b)
    ensures OddsToPct(a + "/" + b) == Err(InvalidLiteral(if IsDigits(a) then b else a))
  {
    var s := a + "/" + b;
    assert s == a + ['/'] + b;
    assert Normalise(s) == s;
    SplitAround(a, '/', b);
    assert Count(s, '/') == 1 by { assert |Split(s, '/')| == 2; }
  }

  /** Anything without exactly one separator is rejected before parsing. */
  lemma SeparatorCount(odds: string)
    requires Count(Normalise(odds), '/') != 1
    ensures OddsToPct(odds) == Err(InvalidInput(Normalise(odds)))
  {
  }

  lemma Value10()
    ensures DigitsValue("10") == 10
  {
    assert "10"[..1] == "1";
  }

  lemma Value100()
    ensures DigitsValue("100") == 100
  {
    assert "100"[..2] == "10";
    Value10();
  }

  /** "10/2" is 0.2. */
  lemma OddsExampleTenToTwo()
    ensures OddsToPct("10" + "/" + "2") == Ok(0.2)
  {
    assert IsDigits("10") && IsDigits("2");
    OddsOfDigits("10", "2");
    Value10();
    assert DigitsValue("2") == 2;
    assert Ratio(10, 2) * 10.0 == 2.0;
  }

  /** "9/4" is 4/9. */
  lemma OddsExampleNineToFour()
    ensures OddsToPct("9" + "/" + "4").Ok? && OddsToPct("9" + "/" + "4").value * 9.0 == 4.0
  {
    OddsOfDigits("9", "4");
  }

  /** "100/1" gives 0.01. */
  lemma OddsExampleHundredToOne()
    ensures OddsToPct("100" + "/" + "1") == Ok(0.01)
  {
    assert IsDigits("100") && IsDigits("1");
    OddsOfDigits("100", "1");
    Value100();
    assert DigitsValue("1") == 1;
    assert Ratio(100, 1) * 100.0 == 1.0;
  }

  /** "100:1" and "100-1" mean the same as "100/1". */
  lemma OddsExampleSeparators()
    ensures OddsToPct("100" + ":" + "1") == OddsToPct("100" + "/" + "1")
    ensures OddsToPct("100" + "-" + "1") == OddsToPct("100" + "/" + "1")
  {
    SeparatorsEquivalent("100", "1", ':');
    SeparatorsEquivalent("100", "1", '-');
  }

  /** "0/100" is rejected by the inversion check, before the zero check. */
  lemma OddsExampleZeroLeft()
    ensures OddsToPct("0" + "/" + "100") == Err(InvalidInput("0" + "/" + "100"))
  {
    OddsOfDigits("0", "100");
    Value100();
  }

  /** "100/0" is rejected by the zero check. */
  lemma OddsExampleZeroRight()
    ensures OddsToPct("100" + "/" + "0") == Err(InvalidInput("100" + "/" + "0"))
  {
    OddsOfDigits("100", "0");
  }

  /** "2/2" is even odds: equal sides pass the inverted-odds check and give certainty. */
  lemma OddsExampleEvens()
    ensures OddsToPct("2" + "/" + "2") == Ok(1.0)
  {
    assert IsDigits("2");
    OddsOfDigits("2", "2");
    assert DigitsValue("2") == 2;
  }

  /** "100" has no separator. */
  lemma OddsExampleNoSeparator()
    ensures OddsToPct("100") == Err(InvalidInput("100"))
  {
    assert Normalise("100") == "100";
    assert Count("100", '/') == 0;
  }

  /** "100/100/100" has two. */
  lemma OddsExampleTwoSeparators()
    ensures OddsToPct("100" + "/" + "100" + "/" + "100").Err?
  {
    var a := "100";
    var t := a + "/";
    assert '/' !in a;
    CountConcat(a, "/");
    CountConcat(t, a);
    CountConcat(t + a, "/");
    CountConcat(t + a + "/", a);
    NormaliseDigits(a);
    assert Normalise("/") == "/";
    NormaliseConcat(a, "/");
    NormaliseConcat(t, a);
    NormaliseConcat(t + a, "/");
    NormaliseConcat(t + a + "/", a);
    SeparatorCount(t + a + "/" + a);
  }

  /** "/" has an empty left side, which `int()` rejects. */
  lemma OddsExampleBareSeparator()
    ensures OddsToPct("" + "/" + "") == Err(InvalidLiteral(""))
  {
    OddsNeedDigits("", "");
  }

  /** "/1" has an empty left side. */
  lemma OddsExampleEmptyLeft()
    ensures OddsToPct("" + "/" + "1") == Err(InvalidLiteral(""))
  {
    OddsNeedDigits("", "1");
  }

  /** "100/" has an empty right side. */
  lemma OddsExampleEmptyRight()
    ensures OddsToPct("100" + "/" + "") == Err(InvalidLiteral(""))
  {
    assert IsDigits("100") && !IsDigits("");
    OddsNeedDigits("100", "");
  }
}
