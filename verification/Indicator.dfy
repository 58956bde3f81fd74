/** The rolling z-score window: running sums kept in place, and the statistics they are worth. */
module Indicator {
  import opened Models
  import opened StrategyModel

  type RealFunction = real -> real

  /** What the library square root promises, over exact reals. */
  ghost predicate IsSquareRoot(sqrt: RealFunction) {
    forall v: real :: v >= 0.0 ==> sqrt(v) >= 0.0 && Sq(sqrt(v)) == v
  }

  function Sq(x: real): real { x * x }

  function Sum(s: seq<real>): real {
    if s == [] then 0.0 else s[0] + Sum(s[1..])
  }

  function SumSq(s: seq<real>): real {
    if s == [] then 0.0 else Sq(s[0]) + SumSq(s[1..])
  }

  /** The last n values of a history, or all of it while it is shorter. */
  function LastN(history: seq<real>, n: nat): (r: seq<real>)
    ensures |r| == if |history| <= n then |history| else n
  {
    if |history| <= n then history else history[|history| - n..]
  }

  function MeanOf(n: nat, total: real): real
    requires n > 0
  {
    total / n as real
  }

  function VarianceOf(n: nat, total: real, totalSq: real): real
    requires n > 0
  {
    totalSq / n as real - Sq(MeanOf(n, total))
  }

  function Mean(s: seq<real>): real
    requires s != []
  {
    MeanOf(|s|, Sum(s))
  }

  function Variance(s: seq<real>): real
    requires s != []
  {
    VarianceOf(|s|, Sum(s), SumSq(s))
  }

  /** Sum of squared deviations from m. */
  function Deviation(s: seq<real>, m: real): real {
    if s == [] then 0.0 else Sq(s[0] - m) + Deviation(s[1..], m)
  }

  lemma {:induction false} SumConcat(a: seq<real>, b: seq<real>)
    ensures Sum(a + b) == Sum(a) + Sum(b) && SumSq(a + b) == SumSq(a) + SumSq(b)
  {
    hide Sq;
    if a == [] {
      assert a + b == b;
    } else {
      assert (a + b)[1..] == a[1..] + b;
      SumConcat(a[1..], b);
    }
  }

  // Facts about real numbers alone; sequences stay out of these so that the products stay few.

  lemma SqIsMul(d: real)
    ensures Sq(d) == Mul(d, d) && Sq(d) == Sq(-d) && Sq(0.0) == 0.0
  {
  }

  // The products stay behind their names here: the solver loses squares it sees in the open.
  lemma SqSign(d: real)
    ensures Sq(d) >= 0.0 && (Sq(d) == 0.0 <==> d == 0.0)
  {
    hide Mul, Sq;
    SqIsMul(d);
    SqIsMul(-d);
    if d > 0.0 {
      MulPositive(d, d);
    } else if d < 0.0 {
      MulPositive(-d, -d);
    }
  }

  lemma SqOfSum(x: real, y: real)
    ensures Sq(x + y) == Sq(x) + 2.0 * (x * y) + Sq(y)
  {
    assert (x + y) * (x + y) == x * x + 2.0 * (x * y) + y * y;
  }

  lemma SqOfDifference(x: real, y: real)
    ensures Sq(x - y) == Sq(x) - 2.0 * (x * y) + Sq(y)
  {
    assert (x - y) * (x - y) == x * x - 2.0 * (x * y) + y * y;
  }

  lemma Distribute(n: real, a: real, b: real, c: real)
    ensures n * (a + b - 2.0 * c) == n * a + n * b - 2.0 * (n * c)
  {
    assert n * (a + b - 2.0 * c) == n * (a + b) - n * (2.0 * c);
    assert n * (2.0 * c) == 2.0 * (n * c);
  }

  lemma Scaled(n: real, x: real, t: real)
    ensures Sq(n * x) == n * (n * Sq(x)) && n * x * t == n * (x * t)
  {
    assert n * x * (n * x) == n * (x * (n * x));
    assert x * (n * x) == n * (x * x);
  }

  lemma SignOfProduct(n: real, v: real)
    requires n > 0.0
    ensures n * v >= 0.0 <==> v >= 0.0
    ensures n * v == 0.0 <==> v == 0.0
  {
    if v > 0.0 {
      assert n * v > 0.0;
    } else if v < 0.0 {
      assert n * (-v) > 0.0;
    }
  }

  lemma Divided(a: real, n: real)
    requires n > 0.0
    ensures a / n * n == a
  {
  }

  /** n deviations from m, given their count, sum and sum of squares. */
  function Expanded(n: real, m: real, t: real, q: real): real {
    q - 2.0 * m * t + n * m * m
  }

  lemma ExpandStep(x: real, m: real, n: real, t: real, q: real)
    ensures Sq(x - m) + Expanded(n, m, t, q) == Expanded(n + 1.0, m, x + t, Sq(x) + q)
  {
    assert (x - m) * (x - m) == x * x - 2.0 * m * x + m * m;
  }

  lemma ExpandNone(m: real)
    ensures Expanded(0.0, m, 0.0, 0.0) == 0.0
  {
  }

  lemma {:induction false} DeviationExpands(s: seq<real>, m: real)
    ensures Deviation(s, m) == Expanded(|s| as real, m, Sum(s), SumSq(s))
  {
    hide Sq, Expanded;
    if s == [] {
      ExpandNone(m);
    } else {
      DeviationExpands(s[1..], m);
      ExpandStep(s[0], m, |s[1..]| as real, Sum(s[1..]), SumSq(s[1..]));
    }
  }

  predicate AllEqual(s: seq<real>, m: real) {
    forall i :: 0 <= i < |s| ==> s[i] == m
  }

  lemma {:induction false} DeviationSign(s: seq<real>, m: real)
    ensures Deviation(s, m) >= 0.0
    ensures Deviation(s, m) == 0.0 <==> AllEqual(s, m)
  {
    hide Sq;
    if s != [] {
      DeviationSign(s[1..], m);
      SqSign(s[0] - m);
      assert AllEqual(s, m) <==> s[0] == m && AllEqual(s[1..], m) by {
        if s[0] == m && AllEqual(s[1..], m) {
          assert forall i :: 1 <= i < |s| ==> s[i] == s[1..][i - 1];
        }
      }
    }
  }

  lemma MeanAlgebra(n: real, m: real, t: real, q: real, r: real)
    requires m * n == t && r * n == q
    ensures n * (r - Sq(m)) == Expanded(n, m, t, q)
  {
    assert 2.0 * m * t == 2.0 * (m * (m * n));
  }

  lemma MomentsOf(n: nat, t: real, q: real)
    requires n > 0
    ensures n as real * VarianceOf(n, t, q) == Expanded(n as real, MeanOf(n, t), t, q)
  {
    hide Sq, Expanded;
    Divided(t, n as real);
    Divided(q, n as real);
    MeanAlgebra(n as real, MeanOf(n, t), t, q, q / n as real);
  }

  /** The variance is the mean squared deviation. */
  lemma VarianceIsDeviation(s: seq<real>)
    requires s != []
    ensures |s| as real * Variance(s) == Deviation(s, Mean(s))
  {
    hide Sq, Expanded, Deviation, MeanOf, VarianceOf;
    DeviationExpands(s, Mean(s));
    MomentsOf(|s|, Sum(s), SumSq(s));
  }

  lemma SameFactor(a: real, b: real, n: real)
    requires n > 0.0 && a * n == b * n
    ensures a == b
  {
    SignOfProduct(n, a - b);
    assert n * (a - b) == a * n - b * n;
  }

  lemma {:induction false} ConstantSum(s: seq<real>, c: real)
    requires AllEqual(s, c)
    ensures Sum(s) == c * |s| as real
  {
    if s != [] {
      ConstantSum(s[1..], c);
      assert |s| as real == |s[1..]| as real + 1.0;
      assert c * |s| as real == c * |s[1..]| as real + c;
    }
  }

  lemma ConstantMean(s: seq<real>, c: real)
    requires s != [] && AllEqual(s, c)
    ensures Mean(s) == c
  {
    ConstantSum(s, c);
    Divided(Sum(s), |s| as real);
    SameFactor(Mean(s), c, |s| as real);
  }

  /** In exact arithmetic the clamp at zero never acts, and the spread is zero only for a constant window. */
  lemma VarianceNonNegative(s: seq<real>)
    requires s != []
    ensures Variance(s) >= 0.0
    ensures Variance(s) == 0.0 <==> AllEqual(s, s[0])
  {
    hide Variance, Mean, Deviation;
    VarianceIsDeviation(s);
    DeviationSign(s, Mean(s));
    SignOfProduct(|s| as real, Variance(s));
    if AllEqual(s, s[0]) {
      ConstantMean(s, s[0]);
    }
  }

  lemma CrossTerm(x: real, n: real, t: real, q: real)
    requires n > 0.0 && Sq(t) <= n * q
    ensures 2.0 * (x * t) <= n * Sq(x) + q
  {
    hide Sq;
    SqSign(n * x - t);
    SqOfDifference(n * x, t);
    Scaled(n, x, t);
    Distribute(n, n * Sq(x), q, x * t);
    SignOfProduct(n, n * Sq(x) + q - 2.0 * (x * t));
  }

  lemma SquareOfSumStep(x: real, n: real, t: real, q: real)
    requires n >= 0.0 && Sq(t) <= n * q && (n == 0.0 ==> t == 0.0) && q >= 0.0
    ensures Sq(x + t) <= (n + 1.0) * (Sq(x) + q)
  {
    SqOfSum(x, t);
    assert (n + 1.0) * (Sq(x) + q) == n * Sq(x) + Sq(x) + n * q + q by { hide Sq; }
    if n == 0.0 {
    } else {
      hide Sq;
      CrossTerm(x, n, t, q);
    }
  }

  /** Cauchy-Schwarz against a constant sequence. */
  lemma {:induction false} SquareOfSum(s: seq<real>)
    ensures Sq(Sum(s)) <= |s| as real * SumSq(s) && SumSq(s) >= 0.0
  {
    if s != [] {
      SquareOfSum(s[1..]);
      SqSign(s[0]);
      assert |s| as real == |s[1..]| as real + 1.0;
      SquareOfSumStep(s[0], |s[1..]| as real, Sum(s[1..]), SumSq(s[1..]));
    }
  }

  lemma SamuelsonGap(x: real, n: real, t: real, q: real, m: real, r: real)
    requires m * n == t && r * n == q
    ensures n * ((n - 1.0) * (r - Sq(m)) - Sq(x - m)) == (n - 1.0) * q - Sq(t) + 2.0 * (x * t) - n * Sq(x)
  {
    hide Sq;
    SqOfDifference(x, m);
    var v, c := Sq(m), x * m;
    assert n * (x * m) == x * t by { assert n * (x * m) == x * (m * n); }
    assert Sq(t) == n * (n * v) by { Scaled(n, m, m); assert n * m == t; }
    assert (n - 1.0) * (r - v) == n * r - n * v - r + v;
    assert n * (n * r - n * v - r + v - (Sq(x) - 2.0 * c + v))
        == n * (n * r) - n * (n * v) - n * r - n * Sq(x) + 2.0 * (n * c) by {
      Distribute(n, n * r - n * v - r, -Sq(x), -c);
    }
    assert n * (n * r) == n * q;
  }

  lemma SamuelsonAlgebra(x: real, n: real, t: real, q: real, m: real, r: real)
    requires n > 0.0 && m * n == t && r * n == q
    requires Sq(t - x) <= (n - 1.0) * (q - Sq(x))
    ensures Sq(x - m) <= Mul(n - 1.0, r - Sq(m))
  {
    hide Sq;
    SamuelsonGap(x, n, t, q, m, r);
    SqOfDifference(t, x);
    assert (n - 1.0) * (q - Sq(x)) == (n - 1.0) * q - n * Sq(x) + Sq(x);
    SignOfProduct(n, (n - 1.0) * (r - Sq(m)) - Sq(x - m));
  }

  lemma MomentBound(x: real, n: nat, t: real, q: real)
    requires n > 0
    requires Sq(t - x) <= (n as real - 1.0) * (q - Sq(x))
    ensures Sq(x - MeanOf(n, t)) <= Mul(n as real - 1.0, VarianceOf(n, t, q))
  {
    hide Sq, Mul;
    Divided(t, n as real);
    Divided(q, n as real);
    var m, r := MeanOf(n, t), q / n as real;
    SamuelsonAlgebra(x, n as real, t, q, m, r);
    assert VarianceOf(n, t, q) == r - Sq(m);
  }

  lemma Inserted(a: seq<real>, x: real, c: seq<real>)
    ensures Sum(a + ([x] + c)) == Sum(a + c) + x && SumSq(a + ([x] + c)) == SumSq(a + c) + Sq(x)
  {
    hide Sq;
    assert ([x] + c)[1..] == c;
    SumConcat(a, [x] + c);
    SumConcat(a, c);
  }

  lemma WithoutOne(s: seq<real>, k: nat)
    requires k < |s|
    ensures Sum(s[..k] + s[k + 1..]) == Sum(s) - s[k] && SumSq(s[..k] + s[k + 1..]) == SumSq(s) - Sq(s[k])
  {
    hide Sq, Sum, SumSq;
    Inserted(s[..k], s[k], s[k + 1..]);
    assert s == s[..k] + ([s[k]] + s[k + 1..]);
  }

  /** Samuelson's inequality: no value of a window lies further from its mean than sqrt(n - 1) deviations. */
  lemma Samuelson(s: seq<real>, k: nat)
    requires k < |s|
    ensures Sq(s[k] - Mean(s)) <= Mul(|s| as real - 1.0, Variance(s))
  {
    hide Sq, Mul, MeanOf, VarianceOf, Sum, SumSq;
    var others := s[..k] + s[k + 1..];
    WithoutOne(s, k);
    SquareOfSum(others);
    assert |others| as real == |s| as real - 1.0;
    MomentBound(s[k], |s|, Sum(s), SumSq(s));
  }

  // ---------------------------------------------------------------- the engine

  /** The z-score of a spread against a full window of totals; None until the window is full or while it is constant. */
  function ZscoreAgainst(sqrt: RealFunction, window: nat, count: nat, total: real, totalSq: real,
                         spread: real): Option<real>
    requires window > 0
  {
    if count < window then None
    else
      var std := sqrt(Max(VarianceOf(window, total, totalSq), 0.0));
      if std == 0.0 then None else Some((spread - MeanOf(window, total)) / std)
  }

  /**
   The statistics a history is worth: the mean and deviation of its last `window` values, once there are that many.
   */
  function Observed(sqrt: RealFunction, window: nat, history: seq<real>, bar: MarketBar): IndicatorSnapshot
    requires window > 0
  {
    if |history| < window
    then IndicatorSnapshot(bar.spread, None, None, None, false, bar.entryAllowed, bar.closeAllowed)
    else
      var recent := LastN(history, window);
      var std := sqrt(Variance(recent));
      var zscore := if AllEqual(recent, recent[0]) then None else Deviations(bar.spread - Mean(recent), std);
      IndicatorSnapshot(bar.spread, Some(Mean(recent)), Some(std), zscore, zscore.Some?, bar.entryAllowed,
                        bar.closeAllowed)
  }

  function Deviations(distance: real, std: real): Option<real> {
    if std == 0.0 then None else Some(distance / std)
  }

  datatype Payload = Payload(window: nat, values: seq<real>, total: Option<real>, totalSq: Option<real>) {
    /** A payload whose totals are those of its values, and whose values fit the window. */
    predicate Consistent() {
      && window > 0 && |values| <= window
      && (total.Some? ==> total.value == Sum(values)) && (totalSq.Some? ==> totalSq.value == SumSq(values))
    }
  }

  class IndicatorEngine {
    const window: nat
    const sqrt: RealFunction
    var values: seq<real>
    var total: real
    var totalSq: real
    ghost var history: seq<real>

    ghost predicate Valid()
      reads this
    {
      && window > 0 && IsSquareRoot(sqrt)
      && values == LastN(history, window) && total == Sum(values) && totalSq == SumSq(values)
    }

    constructor (window: nat, sqrt: RealFunction)
      requires window > 0 && IsSquareRoot(sqrt)
      ensures Valid() && this.window == window && this.sqrt == sqrt && history == []
    {
      this.window, this.sqrt := window, sqrt;
      values, total, totalSq, history := [], 0.0, 0.0, [];
    }

    /**
     Restores a saved engine as it stands; absent totals are summed afresh. Saved totals are taken on trust, so the
     engine is a valid one exactly when the payload was consistent.
     */
    constructor FromJsonable(payload: Payload, sqrt: RealFunction)
      ensures window == payload.window && this.sqrt == sqrt && history == values == payload.values
      ensures total == (if payload.total.Some? then payload.total.value else Sum(payload.values))
      ensures totalSq == (if payload.totalSq.Some? then payload.totalSq.value else SumSq(payload.values))
      ensures Valid() <==> payload.Consistent() && IsSquareRoot(sqrt)
    {
      window, this.sqrt := payload.window, sqrt;
      values := payload.values;
      total := if payload.total.Some? then payload.total.value else Sum(payload.values);
      totalSq := if payload.totalSq.Some? then payload.totalSq.value else SumSq(payload.values);
      history := payload.values;
    }

    function ToJsonable(): Payload
      reads this
    {
      Payload(window, values, Some(total), Some(totalSq))
    }

    method Update(bar: MarketBar) returns (snap: IndicatorSnapshot)
      requires Valid()
      modifies this
      ensures Valid() && history == old(history) + [bar.spread]
      ensures snap == Observed(sqrt, window, history, bar)
      ensures |values| == window ==> snap.zscore == ZscoreAgainst(sqrt, window, |values|, total, totalSq, bar.spread)
    {
      hide Sq, IsSquareRoot, MeanOf, VarianceOf, Observed, LastN, Sum, SumSq, ZscoreAgainst, Max;
      Slid(history, window, bar.spread);
      history := history + [bar.spread];
      values := values + [bar.spread];
      total := total + bar.spread;
      totalSq := totalSq + Sq(bar.spread);
      if |values| > window {
        var oldest := values[0];
        values := values[1..];
        total := total - oldest;
        totalSq := totalSq - Sq(oldest);
      }
      FromTotals(sqrt, window, history, bar);
      var mean, std, zscore, valid := None, None, None, false;
      if |values| == window {
        var m := MeanOf(window, total);
        var s := sqrt(Max(VarianceOf(window, total, totalSq), 0.0));
        mean, std := Some(m), Some(s);
        if s != 0.0 {
          zscore, valid := Some((bar.spread - m) / s), true;
        }
      }
      snap := IndicatorSnapshot(bar.spread, mean, std, zscore, valid, bar.entryAllowed, bar.closeAllowed);
    }
  }

  /** What a valid engine saves is consistent, and is the window of everything it has seen. */
  lemma SavedIsConsistent(engine: IndicatorEngine)
    requires engine.Valid()
    ensures engine.ToJsonable().Consistent() && engine.ToJsonable().values == LastN(engine.history, engine.window)
  {
  }

  /** An engine restored from a window scores everything that follows as the one that saw the whole history. */
  lemma RestoredScoresAlike(sqrt: RealFunction, window: nat, history: seq<real>, later: seq<real>, bar: MarketBar)
    requires window > 0
    ensures Observed(sqrt, window, LastN(history, window) + later, bar) == Observed(sqrt, window, history + later, bar)
  {
    assert LastN(LastN(history, window) + later, window) == LastN(history + later, window);
  }

  /** Sliding the window one value on, and what that does to its totals. */
  lemma Slid(history: seq<real>, window: nat, x: real)
    requires window > 0
    ensures var grown := LastN(history, window) + [x];
            && |LastN(history, window)| <= window
            && Sum(grown) == Sum(LastN(history, window)) + x && SumSq(grown) == SumSq(LastN(history, window)) + Sq(x)
            && LastN(history + [x], window) == (if |grown| > window then grown[1..] else grown)
            && Sum(grown[1..]) == Sum(grown) - grown[0] && SumSq(grown[1..]) == SumSq(grown) - Sq(grown[0])
  {
    hide Sq;
    SumConcat(LastN(history, window), [x]);
    assert [x][1..] == [];
  }

  /** What the totals of the last window say is what the window itself says. */
  lemma FromTotals(sqrt: RealFunction, window: nat, history: seq<real>, bar: MarketBar)
    requires window > 0 && IsSquareRoot(sqrt)
    ensures var recent := LastN(history, window);
            var (total, totalSq) := (Sum(recent), SumSq(recent));
            var std := sqrt(Max(VarianceOf(window, total, totalSq), 0.0));
            var zscore := ZscoreAgainst(sqrt, window, |recent|, total, totalSq, bar.spread);
            && (|recent| == window <==> |history| >= window)
            && (|recent| == window ==>
                  && zscore == (if std == 0.0 then None else Some((bar.spread - MeanOf(window, total)) / std))
                  && Observed(sqrt, window, history, bar)
                     == IndicatorSnapshot(bar.spread, Some(MeanOf(window, total)), Some(std), zscore, zscore.Some?,
                                          bar.entryAllowed, bar.closeAllowed))
            && (|recent| < window ==>
                  Observed(sqrt, window, history, bar)
                    == IndicatorSnapshot(bar.spread, None, None, None, false, bar.entryAllowed, bar.closeAllowed))
  {
    if |history| >= window {
      hide Sq, IsSquareRoot, VarianceOf, MeanOf, AllEqual, Max, Sum, SumSq;
      ClampedDeviation(sqrt, LastN(history, window));
    }
  }

  /** The clamp passes the variance through, and its root vanishes only on a constant window. */
  lemma ClampedDeviation(sqrt: RealFunction, s: seq<real>)
    requires s != [] && IsSquareRoot(sqrt)
    ensures Max(Variance(s), 0.0) == Variance(s)
    ensures Sq(sqrt(Variance(s))) == Variance(s)
    ensures sqrt(Variance(s)) >= 0.0 && (sqrt(Variance(s)) == 0.0 <==> AllEqual(s, s[0]))
  {
    hide Variance, Sq;
    VarianceNonNegative(s);
    SqSign(sqrt(Variance(s)));
  }

  lemma BoundedRatio(x: real, std: real, limit: real)
    requires std > 0.0 && Sq(x) <= Mul(limit, Sq(std))
    ensures Sq(x / std) <= limit
  {
    var z := x / std;
    MulOfRatio(x, std);
    hide Sq, Mul;
    MulSq(z, std);
    SqSign(std);
    MulCancels(Sq(z), limit, Sq(std));
  }

  lemma MulSq(a: real, b: real)
    ensures Sq(Mul(a, b)) == Mul(Sq(a), Sq(b))
  {
    assert a * b * (a * b) == a * a * (b * b);
  }

  /**
   On every decision bar the squared z-score is at most window - 1, whatever the spreads were: the scored spread is
   itself one of the window's values. A score exists exactly when the window is full and not constant.
   */
  lemma DecisionBound(sqrt: RealFunction, window: nat, earlier: seq<real>, bar: MarketBar)
    requires window > 0 && IsSquareRoot(sqrt)
    ensures var history := earlier + [bar.spread];
            var snap := Observed(sqrt, window, history, bar);
            && (snap.zscoreValid <==> snap.zscore.Some?)
            && (snap.zscoreValid <==> |history| >= window && !AllEqual(LastN(history, window), bar.spread))
            && (snap.zscoreValid ==> Sq(snap.zscore.value) <= window as real - 1.0)
  {
    hide Sq, Mul, IsSquareRoot, Variance, Mean;
    var history := earlier + [bar.spread];
    if |history| >= window {
      var recent := LastN(history, window);
      assert recent[window - 1] == bar.spread;
      ClampedDeviation(sqrt, recent);
      Samuelson(recent, window - 1);
      if sqrt(Variance(recent)) != 0.0 {
        BoundedRatio(bar.spread - Mean(recent), sqrt(Variance(recent)), window as real - 1.0);
      }
    }
  }
}
