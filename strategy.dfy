/** `KL8Predictor.get_number_from_play_type`, `calculate_expected_value` with
    its `nCr`, and `find_best_strategy`: the prize table of the ten play types
    "pick 1" (选一) to "pick 10" (选十), the hypergeometric probability of each
    prize tier blended with the tier's frequency in the history, and the play
    types ranked by expected value. */
module Strategy {
  import opened Common
  import opened Ranking
  import opened Draws

  // ---------------------------------------------------------------------
  // Play types.

  /** The numerals `一` to `十` and their values. */
  const ChineseNums: map<string, int> := map[
    "一" := 1, "二" := 2, "三" := 3, "四" := 4, "五" := 5,
    "六" := 6, "七" := 7, "八" := 8, "九" := 9, "十" := 10]

  /** `chinese_nums[play_type[1:]]`: the label without its first character
      (the empty string for an empty label), looked up; an unknown numeral
      raises `KeyError`. */
  function NumberFromPlayType(playType: string): (r: Result<int>)
    ensures r.Ok? ==> 1 <= r.value <= 10
    ensures r.Ok? <==> |playType| >= 1 && playType[1..] in ChineseNums
  {
    var chineseNum := if |playType| >= 1 then playType[1..] else "";
    if chineseNum in ChineseNums then Ok(ChineseNums[chineseNum]) else Err(KeyError)
  }

  /** A prize tier `'中h': prize`: `hits` is the number `h` the label ends in. */
  datatype Tier = Tier(hits: int, prize: real)

  /** `prize_settings`, in its insertion order. */
  const PrizeSettings: seq<(string, seq<Tier>)> := [
    ("选一", [Tier(1, 4.6)]),
    ("选二", [Tier(2, 19.0)]),
    ("选三", [Tier(3, 53.0), Tier(2, 3.0)]),
    ("选四", [Tier(4, 100.0), Tier(3, 5.0), Tier(2, 3.0)]),
    ("选五", [Tier(5, 1000.0), Tier(4, 21.0), Tier(3, 3.0)]),
    ("选六", [Tier(6, 2000.0), Tier(5, 50.0), Tier(4, 8.0), Tier(3, 3.0)]),
    ("选七", [Tier(7, 4000.0), Tier(6, 100.0), Tier(5, 15.0), Tier(4, 4.0), Tier(3, 3.0)]),
    ("选八", [Tier(8, 8000.0), Tier(7, 200.0), Tier(6, 30.0), Tier(5, 8.0), Tier(4, 3.0)]),
    ("选九", [Tier(9, 15000.0), Tier(8, 400.0), Tier(7, 60.0), Tier(6, 15.0), Tier(5, 5.0), Tier(4, 3.0)]),
    ("选十", [Tier(10, 50000.0), Tier(9, 800.0), Tier(8, 120.0), Tier(7, 30.0), Tier(6, 8.0), Tier(5, 4.0)])]

  function PlayTypes(): (r: seq<string>)
    ensures |r| == |PrizeSettings|
    ensures forall i :: 0 <= i < |r| ==> r[i] == PrizeSettings[i].0
  {
    seq(|PrizeSettings|, i requires 0 <= i < |PrizeSettings| => PrizeSettings[i].0)
  }

  /** `prize_settings[play_type]`; `None` stands for the `KeyError`. */
  function LookupPrizes(playType: string): (r: Option<seq<Tier>>)
    ensures r.Some? <==> exists i :: 0 <= i < |PrizeSettings| && PrizeSettings[i].0 == playType
    ensures forall i :: 0 <= i < |PrizeSettings| && PrizeSettings[i].0 == playType ==> r == Some(PrizeSettings[i].1)
  {
    Find(playType, 0)
  }

  function Find(playType: string, from: nat): (r: Option<seq<Tier>>)
    requires from <= |PrizeSettings|
    ensures r.Some? <==> exists i :: from <= i < |PrizeSettings| && PrizeSettings[i].0 == playType
    ensures forall i :: from <= i < |PrizeSettings| && PrizeSettings[i].0 == playType ==> r == Some(PrizeSettings[i].1)
    decreases |PrizeSettings| - from
  {
    if from == |PrizeSettings| then None
    else if PrizeSettings[from].0 == playType then
      PlayTypesDistinct();
      Some(PrizeSettings[from].1)
    else Find(playType, from + 1)
  }

  lemma PlayTypesDistinct()
    ensures forall i, j :: 0 <= i < j < |PrizeSettings| ==> PrizeSettings[i].0 != PrizeSettings[j].0
  {
    forall i, j | 0 <= i < j < |PrizeSettings| ensures PrizeSettings[i].0 != PrizeSettings[j].0 {
      assert PrizeSettings[i].0[1] != PrizeSettings[j].0[1];
    }
  }

  /** Every tier of play type `n` pays for `hits` between 1 and `n`. */
  predicate TiersFit(n: int, tiers: seq<Tier>) {
    forall i :: 0 <= i < |tiers| ==> 1 <= tiers[i].hits <= n
  }

  /** The labels name the pick sizes 1 to 10 in order; every table is non-empty
      and its tiers fit the pick size. */
  lemma PrizeSettingsFacts(i: int)
    requires 0 <= i < |PrizeSettings|
    ensures NumberFromPlayType(PrizeSettings[i].0) == Ok(i + 1)
    ensures PrizeSettings[i].1 != []
    ensures TiersFit(i + 1, PrizeSettings[i].1)
  {
    var name := PrizeSettings[i].0;
    assert name == [name[0]] + name[1..];
    assert |name| == 2;
  }

  // ---------------------------------------------------------------------
  // Binomial coefficients.

  /** `math.factorial`. */
  function Fact(n: nat): (f: nat)
    ensures f >= 1
  {
    if n == 0 then 1 else n * Fact(n - 1)
  }

  /** `nCr` as the source writes it:
      `math.factorial(n) // (math.factorial(r) * math.factorial(n - r))`. */
  function NCr(n: nat, r: nat): nat
    requires r <= n
  {
    Fact(n) / (Fact(r) * Fact(n - r))
  }

  /** Pascal's rule: an independent definition of the binomial coefficient. */
  function Binomial(n: nat, r: nat): nat
    decreases n
  {
    if r == 0 then 1
    else if n == 0 then 0
    else Binomial(n - 1, r - 1) + Binomial(n - 1, r)
  }

  lemma {:induction false} BinomialBeyond(n: nat, r: nat)
    requires r > n
    ensures Binomial(n, r) == 0
    decreases n
  {
    if n > 0 {
      BinomialBeyond(n - 1, r - 1);
      BinomialBeyond(n - 1, r);
    }
  }

  lemma {:induction false} BinomialAll(n: nat)
    ensures Binomial(n, n) == 1
    decreases n
  {
    if n > 0 {
      BinomialAll(n - 1);
      BinomialBeyond(n - 1, n);
    }
  }

  lemma {:induction false} BinomialOne(n: nat)
    ensures Binomial(n, 1) == n
    decreases n
  {
    if n > 0 {
      BinomialOne(n - 1);
    }
  }

  lemma {:induction false} BinomialPositive(n: nat, r: nat)
    requires r <= n
    ensures Binomial(n, r) >= 1
    decreases n
  {
    if r > 0 && r < n {
      BinomialPositive(n - 1, r - 1);
    } else if r == n {
      BinomialAll(n);
    }
  }

  /** The algebra of one Pascal step on the factorial identity:
      `r! (n-r)! (a + b) == n (n-1)!` from the identities for `a` and `b`. */
  lemma PascalAlgebra(n: int, r: int, x: int, y: int, u: int, v: int, a: int, b: int, f: int)
    requires x * y * a == f && u * v * b == f
    requires u == r * x && y == (n - r) * v
    ensures u * y * (a + b) == n * f
  {
    assert u * y * a == r * (x * y * a);
    assert u * y * b == (n - r) * (u * v * b);
    assert u * y * (a + b) == u * y * a + u * y * b;
  }

  /** `r! (n - r)! C(n, r) == n!`. */
  lemma {:induction false} FactorialProduct(n: nat, r: nat)
    requires r <= n
    ensures Fact(r) * Fact(n - r) * Binomial(n, r) == Fact(n)
    decreases n
  {
    if r == 0 {
      assert Binomial(n, r) == 1;
    } else if r == n {
      BinomialAll(n);
    } else {
      FactorialProduct(n - 1, r - 1);
      FactorialProduct(n - 1, r);
      PascalAlgebra(n, r, Fact(r - 1), Fact(n - r), Fact(r), Fact(n - 1 - r),
        Binomial(n - 1, r - 1), Binomial(n - 1, r), Fact(n - 1));
    }
  }

  lemma MulAtLeast(d: int, k: int)
    requires d > 0 && k >= 1
    ensures d * k >= d
  {
    assert d * k == d + d * (k - 1);
    if k > 1 {
      MulAtLeast(d, k - 1);
    }
  }

  lemma DivideExact(q: nat, d: nat)
    requires d > 0
    ensures (q * d) / d == q
  {
    var x := q * d;
    var a, b := x / d, x % d;
    assert d * a + b == d * q;
    assert d * (q - a) == b;
    if q - a >= 1 {
      MulAtLeast(d, q - a);
    } else if q - a <= -1 {
      MulAtLeast(d, a - q);
    }
  }

  lemma PositiveProduct(x: int, y: int)
    requires x >= 1 && y >= 1
    ensures x * y >= 1
  {
    MulAtLeast(x, y);
  }

  /** The floor division in `nCr` is exact: it yields the binomial coefficient. */
  lemma NCrIsBinomial(n: nat, r: nat)
    requires r <= n
    ensures NCr(n, r) == Binomial(n, r)
  {
    FactorialProduct(n, r);
    PositiveProduct(Fact(r), Fact(n - r));
    ExactQuotient(Fact(n), Fact(r), Fact(n - r), Binomial(n, r));
  }

  lemma ExactQuotient(f: nat, a: nat, b: nat, q: nat)
    requires a * b * q == f && a * b >= 1
    ensures f / (a * b) == q
  {
    var d := a * b;
    assert f == q * d;
    DivideExact(q, d);
  }

  lemma NCrPositive(n: nat, r: nat)
    requires r <= n
    ensures NCr(n, r) >= 1
  {
    NCrIsBinomial(n, r);
    BinomialPositive(n, r);
  }

  lemma PositiveRatio(a: int, b: int)
    requires a >= 1 && b >= 1
    ensures (a as real) / (b as real) > 0.0
  {
  }

  // ---------------------------------------------------------------------
  // Probabilities.

  /** The 80 numbers of the game and the 20 of them that are drawn; named so
      that the verifier does not evaluate `80!` wherever a probability occurs. */
  const Pool: nat := 80
  const Drawn: nat := 20

  /** `nCr(20, h) * nCr(60, n - h) / nCr(80, n)`: the chance that `h` of `n`
      picked numbers are among the 20 drawn. */
  function Theoretical(n: int, h: int): (p: real)
    requires 0 <= h <= n <= Pool && n - h <= Pool - Drawn && h <= Drawn
    ensures p > 0.0
  {
    NCrPositive(Pool, n);
    NCrPositive(Drawn, h);
    NCrPositive(Pool - Drawn, n - h);
    PositiveProduct(NCr(Drawn, h), NCr(Pool - Drawn, n - h));
    PositiveRatio(NCr(Drawn, h) * NCr(Pool - Drawn, n - h), NCr(Pool, n));
    ((NCr(Drawn, h) * NCr(Pool - Drawn, n - h)) as real) / (NCr(Pool, n) as real)
  }

  /** With one number picked, it is among the 20 drawn with chance 20/80. */
  lemma PickOneChance()
    ensures Theoretical(1, 1) == 20.0 / 80.0
  {
    TheoreticalOne();
    NCrOne(Drawn);
    NCrZero(Pool - Drawn);
    NCrOne(Pool);
    RatioValue(Theoretical(1, 1), NCr(Drawn, 1), NCr(Pool - Drawn, 0), NCr(Pool, 1));
  }

  lemma RatioValue(x: real, a: nat, b: nat, c: nat)
    requires a == 20 && b == 1 && c == 80 && x == ((a * b) as real) / (c as real)
    ensures x == 20.0 / 80.0
  {
  }

  lemma TheoreticalOne()
    ensures NCr(Pool, 1) > 0
    ensures Theoretical(1, 1) == ((NCr(Drawn, 1) * NCr(Pool - Drawn, 0)) as real) / (NCr(Pool, 1) as real)
  {
    NCrPositive(Pool, 1);
  }

  lemma NCrOne(n: nat)
    requires n >= 1
    ensures NCr(n, 1) == n
  {
    NCrIsBinomial(n, 1);
    BinomialOne(n);
  }

  lemma NCrZero(n: nat)
    ensures NCr(n, 0) == 1
  {
    NCrIsBinomial(n, 0);
  }

  /** `numbers[:n]`. */
  function Take(s: seq<int>, n: int): seq<int>
    requires n >= 0
  {
    if n <= |s| then s[..n] else s
  }

  /** `len(set(numbers[:n]).intersection(set(numbers)))`. */
  function SelfHits(numbers: seq<int>, n: int): nat
    requires n >= 0
  {
    |SetOf(Take(numbers, n)) * SetOf(numbers)|
  }

  /** The rows whose first `n` numbers meet the row itself in exactly `h` numbers. */
  function HitTimes(rows: seq<Draw>, n: int, h: int): (r: nat)
    requires n >= 0
    ensures r <= |rows|
    decreases |rows|
  {
    if rows == [] then 0
    else HitTimes(rows[..|rows| - 1], n, h) + (if SelfHits(rows[|rows| - 1].numbers, n) == h then 1 else 0)
  }

  /** The first `n` numbers of a draw are among its own numbers, so a draw of
      distinct numbers meets itself in `min(n, length)` numbers. */
  lemma SelfHitsDistinct(numbers: seq<int>, n: int)
    requires n >= 0 && Distinct(numbers)
    ensures SelfHits(numbers, n) == Min(n, |numbers|)
  {
    var t := Take(numbers, n);
    assert SetOf(t) * SetOf(numbers) == SetOf(t);
    assert Distinct(t);
    SetOfSize(t);
  }

  /** Over well-formed draws and `1 <= n <= 20`, exactly the tier `h == n` is
      hit, by every draw. */
  lemma {:induction false} HitTimesValid(rows: seq<Draw>, n: int, h: int)
    requires AllValid(rows) && 0 <= n <= 20
    ensures HitTimes(rows, n, h) == (if h == n then |rows| else 0)
    decreases |rows|
  {
    if rows != [] {
      assert AllValid(rows[..|rows| - 1]);
      HitTimesValid(rows[..|rows| - 1], n, h);
      SelfHitsDistinct(rows[|rows| - 1].numbers, n);
    }
  }

  /** `0.3 * theoretical_prob + 0.7 * empirical_prob`, times the prize. */
  function TierValue(theoretical: real, hitTimes: nat, totalDraws: nat, prize: real): real
    requires totalDraws > 0
  {
    (0.3 * theoretical + 0.7 * ((hitTimes as real) / (totalDraws as real))) * prize
  }

  /** The expected winnings over `tiers`, before the cost. */
  function TierSum(rows: seq<Draw>, n: int, tiers: seq<Tier>): real
    requires rows != [] && 0 <= n <= 10 && TiersFit(n, tiers)
    decreases |tiers|
  {
    if tiers == [] then 0.0
    else
      var t := tiers[|tiers| - 1];
      TierSum(rows, n, tiers[..|tiers| - 1]) + TierValue(Theoretical(n, t.hits), HitTimes(rows, n, t.hits), |rows|, t.prize)
  }

  lemma TierSumStep(rows: seq<Draw>, n: int, tiers: seq<Tier>, i: int)
    requires rows != [] && 0 <= n <= 10 && TiersFit(n, tiers) && 0 <= i < |tiers|
    ensures TierSum(rows, n, tiers[..i + 1]) == TierSum(rows, n, tiers[..i])
      + TierValue(Theoretical(n, tiers[i].hits), HitTimes(rows, n, tiers[i].hits), |rows|, tiers[i].prize)
  {
    assert tiers[..i + 1][..i] == tiers[..i];
  }

  const Cost: real := 2.0

  /** The play type's pick size and tier table, once looked up, fit each other. */
  predicate Fits(number: Result<int>, prizes: Option<seq<Tier>>) {
    number.Ok? && prizes.Some? ==>
      0 <= number.value <= 10 && TiersFit(number.value, prizes.value) && prizes.value != []
  }

  /** The tiers of every play type fit its pick size. */
  lemma PrizesFit(playType: string)
    ensures Fits(NumberFromPlayType(playType), LookupPrizes(playType))
  {
    if NumberFromPlayType(playType).Ok? && LookupPrizes(playType).Some? {
      var i :| 0 <= i < |PrizeSettings| && PrizeSettings[i].0 == playType;
      PrizeSettingsFacts(i);
    }
  }

  /** `calculate_expected_value(play_type)`: `KeyError` for a label that does
      not parse or is no play type; `ZeroDivisionError` on an empty history. */
  function ExpectedValue(rows: seq<Draw>, playType: string): Result<real> {
    PrizesFit(playType);
    Evaluate(rows, NumberFromPlayType(playType), LookupPrizes(playType))
  }

  /** The body of `calculate_expected_value` once the play type is looked up. */
  function Evaluate(rows: seq<Draw>, number: Result<int>, prizes: Option<seq<Tier>>): Result<real>
    requires Fits(number, prizes)
  {
    match number
    case Err(e) => Err(e)
    case Ok(n) =>
      match prizes
      case None => Err(KeyError)
      case Some(tiers) =>
        if rows == [] then Err(ZeroDivision) else Ok(TierSum(rows, n, tiers) - Cost)
  }

  method CalculateExpectedValue(rows: seq<Draw>, playType: string) returns (r: Result<real>)
    ensures r == ExpectedValue(rows, playType)
  {
    var number := NumberFromPlayType(playType);
    var prizeInfo := LookupPrizes(playType);
    PrizesFit(playType);
    r := EvaluateLookedUp(rows, number, prizeInfo);
  }

  method EvaluateLookedUp(rows: seq<Draw>, number: Result<int>, prizeInfo: Option<seq<Tier>>) returns (r: Result<real>)
    requires Fits(number, prizeInfo)
    ensures r == Evaluate(rows, number, prizeInfo)
  {
    if number.Err? {
      return Err(number.error);
    }
    if prizeInfo.None? {
      return Err(KeyError);
    }
    var sum := SumTiers(rows, number.value, prizeInfo.value);
    if sum.Err? {
      return Err(sum.error);
    }
    r := Ok(sum.value - Cost);
  }

  /** The loop over the tiers: every tier divides by the number of draws, so
      the first one fails on an empty history. */
  method SumTiers(rows: seq<Draw>, numbersCount: int, tiers: seq<Tier>) returns (r: Result<real>)
    requires 0 <= numbersCount <= 10 && TiersFit(numbersCount, tiers) && tiers != []
    ensures rows == [] ==> r == Err(ZeroDivision)
    ensures rows != [] ==> r == Ok(TierSum(rows, numbersCount, tiers))
  {
    var totalDraws := |rows|;
    var expectedValue := 0.0;
    var i := 0;
    assert tiers[..0] == [];
    while i < |tiers|
      invariant 0 <= i <= |tiers|
      invariant i > 0 ==> rows != []
      invariant rows != [] ==> expectedValue == TierSum(rows, numbersCount, tiers[..i])
    {
      var hitNum := tiers[i].hits;
      var theoreticalProb := Theoretical(numbersCount, hitNum);
      var hitTimes := CountHitTimes(rows, numbersCount, hitNum);
      if totalDraws == 0 {
        return Err(ZeroDivision);
      }
      TierSumStep(rows, numbersCount, tiers, i);
      expectedValue := expectedValue + TierValue(theoreticalProb, hitTimes, totalDraws, tiers[i].prize);
      i := i + 1;
    }
    assert tiers[..i] == tiers;
    r := Ok(expectedValue);
  }

  /** The inner loop: `hit_times += 1` for every row meeting the tier. */
  method CountHitTimes(rows: seq<Draw>, n: int, h: int) returns (hitTimes: nat)
    requires n >= 0
    ensures hitTimes == HitTimes(rows, n, h)
  {
    hitTimes := 0;
    var j := 0;
    while j < |rows|
      invariant 0 <= j <= |rows|
      invariant hitTimes == HitTimes(rows[..j], n, h)
    {
      assert rows[..j + 1][..j] == rows[..j];
      var numbers := rows[j].numbers;
      if |SetOf(Take(numbers, n)) * SetOf(numbers)| == h {
        hitTimes := hitTimes + 1;
      }
      j := j + 1;
    }
    assert rows[..j] == rows;
  }

  /** Over well-formed draws, "pick 1" is worth `(0.3 * 1/4 + 0.7 * 1) * 4.6 - 2`. */
  lemma PickOneValue(rows: seq<Draw>)
    requires rows != [] && AllValid(rows)
    ensures ExpectedValue(rows, "选一") == Ok(1.565)
  {
    PickOneLookup(rows);
    PickOneTierSum(rows);
  }

  lemma PickOneTierSum(rows: seq<Draw>)
    requires rows != [] && AllValid(rows)
    ensures TierSum(rows, 1, [Tier(1, 4.6)]) == 3.565
  {
    PickOneSum(rows);
    HitTimesValid(rows, 1, 1);
    PickOneChance();
    SelfRatio(|rows| as real);
    PickOneArithmetic(TierSum(rows, 1, [Tier(1, 4.6)]), Theoretical(1, 1), HitTimes(rows, 1, 1), |rows|);
  }

  lemma PickOneLookup(rows: seq<Draw>)
    requires rows != []
    ensures ExpectedValue(rows, "选一") == Ok(TierSum(rows, 1, [Tier(1, 4.6)]) - Cost)
  {
    PrizeSettingsFacts(0);
    assert LookupPrizes("选一") == Some([Tier(1, 4.6)]);
    PrizesFit("选一");
    EvaluateOk(rows, NumberFromPlayType("选一"), LookupPrizes("选一"), 1, [Tier(1, 4.6)]);
  }

  /** A play type that parses and has a prize table is valued by `TierSum`. */
  lemma EvaluateOk(rows: seq<Draw>, number: Result<int>, prizes: Option<seq<Tier>>, n: int, tiers: seq<Tier>)
    requires rows != [] && number == Ok(n) && prizes == Some(tiers) && Fits(number, prizes)
    ensures Evaluate(rows, number, prizes) == Ok(TierSum(rows, n, tiers) - Cost)
  {
  }

  lemma PickOneSum(rows: seq<Draw>)
    requires rows != []
    ensures TierSum(rows, 1, [Tier(1, 4.6)])
      == TierValue(Theoretical(1, 1), HitTimes(rows, 1, 1), |rows|, 4.6)
  {
    var tiers := [Tier(1, 4.6)];
    assert tiers[..0] == [];
  }

  lemma PickOneArithmetic(sum: real, theoretical: real, hits: nat, total: nat)
    requires total > 0 && sum == TierValue(theoretical, hits, total, 4.6)
    requires theoretical == 20.0 / 80.0 && hits == total && (total as real) / (total as real) == 1.0
    ensures sum == 3.565
  {
  }

  lemma SelfRatio(x: real)
    requires x > 0.0
    ensures x / x == 1.0
  {
  }

  /** The analysis fails with `KeyError` exactly for labels that are no play
      type, and with `ZeroDivisionError` exactly for a play type on an empty
      history. */
  lemma ExpectedValueErrors(rows: seq<Draw>, playType: string)
    ensures ExpectedValue(rows, playType) == Err(KeyError) <==> playType !in PlayTypes()
    ensures ExpectedValue(rows, playType) == Err(ZeroDivision) <==> playType in PlayTypes() && rows == []
  {
    if playType in PlayTypes() {
      var i :| 0 <= i < |PlayTypes()| && PlayTypes()[i] == playType;
      PrizeSettingsFacts(i);
    } else {
      assert forall i :: 0 <= i < |PrizeSettings| ==> PrizeSettings[i].0 != playType by {
        forall i | 0 <= i < |PrizeSettings| ensures PrizeSettings[i].0 != playType {
          assert PlayTypes()[i] == PrizeSettings[i].0;
        }
      }
    }
  }

  // ---------------------------------------------------------------------
  // find_best_strategy

  datatype StrategyInfo = StrategyInfo(playType: string, expectedValue: real, numbersCount: int)

  /** The entry of the `i`-th play type, keyed by its expected value. */
  function StrategyOf(rows: seq<Draw>, i: int): (s: (StrategyInfo, real))
    requires rows != [] && 0 <= i < |PrizeSettings|
    ensures s.1 == s.0.expectedValue && s.0.playType == PrizeSettings[i].0 && s.0.numbersCount == i + 1
    ensures ExpectedValue(rows, PrizeSettings[i].0) == Ok(s.1)
  {
    ExpectedValueOk(rows, i);
    var ev := ExpectedValue(rows, PrizeSettings[i].0).value;
    (StrategyInfo(PrizeSettings[i].0, ev, i + 1), ev)
  }

  /** The strategies in `prize_settings` order. */
  function Strategies(rows: seq<Draw>): (r: seq<(StrategyInfo, real)>)
    requires rows != []
    ensures |r| == |PrizeSettings|
  {
    seq(|PrizeSettings|, i requires 0 <= i < |PrizeSettings| => StrategyOf(rows, i))
  }

  /** Every play type has an expected value on a non-empty history, and none
      on an empty one. */
  lemma ExpectedValueOk(rows: seq<Draw>, i: int)
    requires 0 <= i < |PrizeSettings|
    ensures rows != [] <==> ExpectedValue(rows, PrizeSettings[i].0).Ok?
    ensures rows == [] ==> ExpectedValue(rows, PrizeSettings[i].0) == Err(ZeroDivision)
    ensures NumberFromPlayType(PrizeSettings[i].0) == Ok(i + 1)
  {
    PrizeSettingsFacts(i);
  }

  /** `sorted(strategies, key=expected_value, reverse=True)`; an empty history
      fails with the first expected value's `ZeroDivisionError`. */
  function BestStrategies(rows: seq<Draw>): Result<seq<(StrategyInfo, real)>> {
    if rows == [] then Err(ZeroDivision) else Ok(SortDesc(Strategies(rows)))
  }

  method FindBestStrategy(rows: seq<Draw>) returns (r: Result<seq<(StrategyInfo, real)>>)
    ensures r == BestStrategies(rows)
  {
    var strategies: seq<(StrategyInfo, real)> := [];
    var i := 0;
    while i < |PrizeSettings|
      invariant 0 <= i <= |PrizeSettings|
      invariant rows != [] ==> strategies == Strategies(rows)[..i]
      invariant rows == [] ==> i == 0
    {
      var playType := PrizeSettings[i].0;
      var ev := CalculateExpectedValue(rows, playType);
      ExpectedValueOk(rows, i);
      if ev.Err? {
        return Err(ev.error);
      }
      var numbersCount := NumberFromPlayType(playType);
      var entry := (StrategyInfo(playType, ev.value, numbersCount.value), ev.value);
      assert entry == StrategyOf(rows, i) == Strategies(rows)[i];
      TakeOneMore(Strategies(rows), i);
      strategies := strategies + [entry];
      i := i + 1;
    }
    assert strategies == Strategies(rows);
    r := Ok(SortDesc(strategies));
  }

  lemma TakeOneMore<T>(s: seq<T>, i: int)
    requires 0 <= i < |s|
    ensures s[..i + 1] == s[..i] + [s[i]]
  {
  }

  /** All ten play types come back, ranked by expected value, highest first,
      play types of equal value in table order. */
  lemma BestStrategiesMeaning(rows: seq<Draw>)
    requires rows != []
    ensures BestStrategies(rows).Ok?
    ensures var r := BestStrategies(rows).value;
      |r| == 10 && Descending(r) && multiset(r) == multiset(Strategies(rows))
      && (forall v :: WithWeight(r, v) == WithWeight(Strategies(rows), v))
      && forall i :: 0 <= i < |r| ==> r[i].1 == r[i].0.expectedValue && 1 <= r[i].0.numbersCount <= 10
  {
    var s := Strategies(rows);
    SortedDescending(s);
    SortDescStableAll(s);
    StrategiesConsistent(rows);
    ConsistentPermutation(s, SortDesc(s));
  }

  lemma StrategiesConsistent(rows: seq<Draw>)
    requires rows != []
    ensures forall j :: 0 <= j < |Strategies(rows)| ==>
      Strategies(rows)[j].1 == Strategies(rows)[j].0.expectedValue && 1 <= Strategies(rows)[j].0.numbersCount <= 10
  {
  }

  lemma ConsistentPermutation(s: seq<(StrategyInfo, real)>, r: seq<(StrategyInfo, real)>)
    requires multiset(r) == multiset(s)
    requires forall j :: 0 <= j < |s| ==> s[j].1 == s[j].0.expectedValue && 1 <= s[j].0.numbersCount <= 10
    ensures forall i :: 0 <= i < |r| ==> r[i].1 == r[i].0.expectedValue && 1 <= r[i].0.numbersCount <= 10
  {
    forall i | 0 <= i < |r| ensures r[i].1 == r[i].0.expectedValue && 1 <= r[i].0.numbersCount <= 10 {
      assert r[i] in multiset(s);
      var j :| 0 <= j < |s| && s[j] == r[i];
    }
  }
}
