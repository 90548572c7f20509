// Quantities derived from fitted parameters in lifetimes/estimation.py: the BG
// probability of n purchases and its expectation, the BG/BB/BG and BG/BB/BG-extension
// conversion probabilities with their regularisation and cumulative sums, and the
// P(alive) matrix of the Pareto/NBD and BG/NBD fitters.

module Derived {
  import opened Common
  import opened Likelihood
  import opened FittedParams

  // ---------------------------------------------------------------------------
  // BG: P(N(t) = n) and E[N(t)]
  // ---------------------------------------------------------------------------

  /** The Beta arguments of the numerator of `static_probability_of_n_purchases_up_to_time`
      as written: `t < n` raises; `n == 0` is tested first and selects beta(a + 1, b),
      then `n < t` selects beta(a + 1, b + n) and `n == t` selects beta(a, b + n). */
  function BgPmfArgsAsWritten(a: real, b: real, t: int, n: int): (r: Result<BetaArgs, Error>)
    ensures r.Err? <==> t < n
    ensures r.Err? ==> r.error == HorizonBelowCount
    ensures r.Ok? && n == 0 ==> r.value == BetaArgs(a + 1.0, b)
    ensures r.Ok? && 0 < n < t ==> r.value == BetaArgs(a + 1.0, b + (n as real))
    ensures r.Ok? && 0 < n == t ==> r.value == BetaArgs(a, b + (n as real))
  {
    if t < n then Err(HorizonBelowCount)
    else if n == 0 then Ok(BetaArgs(a + 1.0, b))
    else if n < t then Ok(BetaArgs(a + 1.0, b + (n as real)))
    else Ok(BetaArgs(a, b + (n as real)))
  }

  /** The numerator the likelihood uses for a history with n renewals out of t periods:
      beta(a + 1, b + n) when the customer churned (n < t), beta(a, b + n) when still
      alive (n == t). */
  function BgPmfArgs(a: real, b: real, t: int, n: int): (r: Result<BetaArgs, Error>)
    ensures r.Err? <==> t < n
    ensures r.Err? ==> r.error == HorizonBelowCount
    ensures r.Ok? ==> r.value == BgNumeratorArgs(a, b, BgRow(n, t))
  {
    if t < n then Err(HorizonBelowCount)
    else if n < t then Ok(BetaArgs(a + 1.0, b + (n as real)))
    else Ok(BetaArgs(a, b + (n as real)))
  }

  /** The two agree everywhere except at t = n = 0, where the written code takes
      beta(a + 1, b) although a customer observed for no period has not churned. */
  lemma {:induction false} BgPmfBranchesAgreeAwayFromZero(a: real, b: real, t: int, n: int)
    ensures BgPmfArgsAsWritten(a, b, t, n) == BgPmfArgs(a, b, t, n) <==> !(t == 0 && n == 0)
  {
  }

  /** `static_probability_of_n_purchases_up_to_time(a, b, t, n)`: a TypeError unless both
      t and n are integers, then the case split, divided by beta(a, b). */
  function BgPmfWith(k: Kernels, a: real, b: real, t: PyNumber, n: PyNumber, asWritten: bool): (r: Result<real, Error>)
    ensures !(t.PyInt? && n.PyInt?) ==> r == Err(NotIntegers)
    ensures t.PyInt? && n.PyInt? ==> (r.Err? <==> t.i < n.i)
  {
    if !(t.PyInt? && n.PyInt?) then Err(NotIntegers)
    else
      var args := if asWritten then BgPmfArgsAsWritten(a, b, t.i, n.i) else BgPmfArgs(a, b, t.i, n.i);
      match args
      case Err(e) => Err(e)
      case Ok(num) => Ok(FDiv(k, BetaOf(k, num), k.beta(a, b)))
  }

  function BgPmfAsWritten(k: Kernels, a: real, b: real, t: PyNumber, n: PyNumber): (r: Result<real, Error>)
    ensures !(t.PyInt? && n.PyInt?) ==> r == Err(NotIntegers)
    ensures t.PyInt? && n.PyInt? ==> (r.Err? <==> t.i < n.i)
  {
    BgPmfWith(k, a, b, t, n, true)
  }

  function BgPmf(k: Kernels, a: real, b: real, t: PyNumber, n: PyNumber): (r: Result<real, Error>)
    ensures !(t.PyInt? && n.PyInt?) ==> r == Err(NotIntegers)
    ensures t.PyInt? && n.PyInt? ==> (r.Err? <==> t.i < n.i)
    ensures t.PyInt? && n.PyInt? && n.i <= t.i ==>
              r == Ok(FDiv(k, BetaOf(k, BgNumeratorArgs(a, b, BgRow(n.i, t.i))), k.beta(a, b)))
  {
    BgPmfWith(k, a, b, t, n, false)
  }

  /** Over zero periods no purchase is certain: the corrected pmf gives 1 at t = n = 0,
      where the written one gives beta(a + 1, b) / beta(a, b), i.e. a / (a + b). */
  lemma {:induction false} BgPmfAtZeroHorizon(k: Kernels, a: real, b: real)
    requires k.beta(a, b) != 0.0
    ensures BgPmf(k, a, b, PyInt(0), PyInt(0)) == Ok(1.0)
    ensures BgPmfAsWritten(k, a, b, PyInt(0), PyInt(0)) == Ok(k.beta(a + 1.0, b) / k.beta(a, b))
  {
    var B := k.beta(a, b);
    assert b + (0 as real) == b;
    assert BgNumeratorArgs(a, b, BgRow(0, 0)) == BetaArgs(a, b);
    assert B / B == 1.0;
  }

  /** The general closed form of `static_expected_number_of_purchases_up_to_time`. */
  function BgExpectedGeneral(k: Kernels, a: real, b: real, t: real): real {
    var num := t * k.beta(a, b + t) + k.beta(a - 1.0, b + 1.0) - k.beta(a - 1.0, b + t)
               - (t - 1.0) * k.beta(a, b + t);
    FDiv(k, num, k.beta(a, b))
  }

  /** `BGFitter.static_expected_number_of_purchases_up_to_time`: 0 at t = 0,
      beta(a, b + 1) / beta(a, b) at t = 1, the general closed form otherwise. */
  function BgExpected(k: Kernels, a: real, b: real, t: real): (r: real)
    ensures t == 0.0 ==> r == 0.0
    ensures t != 0.0 ==> r == BgExpectedGeneral(k, a, b, t)
  {
    if t == 0.0 then 0.0
    else if t == 1.0 then FDiv(k, k.beta(a, b + 1.0), k.beta(a, b))
    else BgExpectedGeneral(k, a, b, t)
  }

  /** The t = 1 shortcut is the general form at 1. */
  lemma {:induction false} BgExpectedOneShortcut(k: Kernels, a: real, b: real)
    ensures BgExpectedGeneral(k, a, b, 1.0) == BgExpected(k, a, b, 1.0)
  {
    var num := 1.0 * k.beta(a, b + 1.0) + k.beta(a - 1.0, b + 1.0) - k.beta(a - 1.0, b + 1.0)
               - (1.0 - 1.0) * k.beta(a, b + 1.0);
    assert num == k.beta(a, b + 1.0);
  }

  /** The t = 0 shortcut is the general form at 0 whenever the Beta recurrence
      B(x, y) = B(x + 1, y) + B(x, y + 1) holds at (a - 1, b) and B(a, b) is nonzero. */
  lemma {:induction false} BgExpectedZeroShortcut(k: Kernels, a: real, b: real)
    requires k.beta(a - 1.0, b) == k.beta(a, b) + k.beta(a - 1.0, b + 1.0)
    requires k.beta(a, b) != 0.0
    ensures BgExpectedGeneral(k, a, b, 0.0) == BgExpected(k, a, b, 0.0)
  {
    assert b + 0.0 == b;
    var num := 0.0 * k.beta(a, b + 0.0) + k.beta(a - 1.0, b + 1.0) - k.beta(a - 1.0, b + 0.0)
               - (0.0 - 1.0) * k.beta(a, b + 0.0);
    assert num == k.beta(a - 1.0, b + 1.0) - k.beta(a - 1.0, b) + k.beta(a, b);
    assert num == 0.0;
    assert FDiv(k, num, k.beta(a, b)) == 0.0;
  }

  // ---------------------------------------------------------------------------
  // Conversion probabilities
  // ---------------------------------------------------------------------------

  /** `(-1) ** k`. */
  function Sign(m: int): real {
    if m % 2 == 0 then 1.0 else -1.0
  }

  /** The fitted parameters of a BG/BB/BG model (c0 unused) or its extension. */
  datatype ConversionParams = ConversionParams(a: real, b: real, g: real, d: real, e: real, z: real, c0: real)

  /** `B(g, d + t) / (B(a, b) * B(g, d) * B(e, z))`. */
  function AliveCoefficient(k: Kernels, p: ConversionParams, t: int): real {
    FDiv(k, k.beta(p.g, p.d + (t as real)), k.beta(p.a, p.b) * k.beta(p.g, p.d) * k.beta(p.e, p.z))
  }

  /** The extension's summation term `ncr(t - 1, k) (-1)^k B(a + k + 1, b) B(e + k + 1, z)`. */
  function ExtTerm(k: Kernels, p: ConversionParams, t: int): int -> real {
    (m: int) => k.ncr(t - 1, m) * Sign(m) * k.beta(p.a + (m as real) + 1.0, p.b) * k.beta(p.e + (m as real) + 1.0, p.z)
  }

  /** `BGBBBGExtFitter.static_expected_probability_of_converting_at_time`: c0 at t = 0,
      otherwise the alive coefficient times (1 - c0) times the t-term sum. */
  function ExtConvertingAt(k: Kernels, p: ConversionParams, t: int): (r: real)
    ensures t == 0 ==> r == p.c0
    ensures t < 0 ==> r == 0.0
  {
    if t == 0 then p.c0
    else AliveCoefficient(k, p, t) * ((1.0 - p.c0) * SumTo(t, ExtTerm(k, p, t)))
  }

  /** The rejection test of the regularised value. */
  predicate Implausible(value: real, previous: real) {
    value < 0.0 || value > previous || value < 0.000001 || value > 1.0
  }

  /** The regularisation of any raw per-period probability `raw`: after the first
      period an implausible value becomes 0. */
  function Regularized(raw: int -> real, t: int): real {
    if t > 1 && Implausible(raw(t), raw(t - 1)) then 0.0 else raw(t)
  }

  function RegularizedFn(raw: int -> real): int -> real {
    (t: int) => Regularized(raw, t)
  }

  /** From one period on, the regularised values summed over `range(t + 1)` never
      decrease, and each further period adds at most 1, whatever the raw values. */
  lemma {:induction false} RegularizedSumMonotone(raw: int -> real, s: int, t: int)
    requires 1 <= s <= t
    ensures SumTo(s + 1, RegularizedFn(raw)) <= SumTo(t + 1, RegularizedFn(raw))
    ensures SumTo(t + 1, RegularizedFn(raw)) <= SumTo(s + 1, RegularizedFn(raw)) + ((t - s) as real)
  {
    forall i | s + 1 <= i < t + 1
      ensures 0.0 <= RegularizedFn(raw)(i) <= 1.0
    {
    }
    SumToBoundedGrowth(RegularizedFn(raw), s + 1, t + 1);
  }

  function ExtRawFn(k: Kernels, p: ConversionParams): int -> real {
    (t: int) => ExtConvertingAt(k, p, t)
  }

  /** `static_regularized_expected_probability_of_converting_at_time`: for t > 1 a raw value
      that is negative, larger than the value at t - 1, below 1e-6 or above 1 becomes 0;
      at t <= 1 the raw value is returned unchanged. */
  function ExtRegularizedAt(k: Kernels, p: ConversionParams, t: int): (r: real)
    ensures t <= 1 ==> r == ExtConvertingAt(k, p, t)
    ensures t > 1 ==> (r == 0.0 <==> Implausible(ExtConvertingAt(k, p, t), ExtConvertingAt(k, p, t - 1)))
    ensures t > 1 && !Implausible(ExtConvertingAt(k, p, t), ExtConvertingAt(k, p, t - 1)) ==> r == ExtConvertingAt(k, p, t)
  {
    var raw := ExtRawFn(k, p);
    assert raw(t) == ExtConvertingAt(k, p, t) && raw(t - 1) == ExtConvertingAt(k, p, t - 1);
    Regularized(raw, t)
  }

  /** Every regularised value after the first period is 0 or a probability in
      [1e-6, 1] no larger than the raw value one period earlier. */
  lemma {:induction false} ExtRegularizedBounds(k: Kernels, p: ConversionParams, t: int)
    requires t > 1
    ensures 0.0 <= ExtRegularizedAt(k, p, t) <= 1.0
    ensures ExtRegularizedAt(k, p, t) == 0.0 ||
            (0.000001 <= ExtRegularizedAt(k, p, t) <= ExtConvertingAt(k, p, t - 1))
  {
  }

  /** `static_expected_probability_of_converting_within_time`: the regularised values
      summed over `range(t + 1)`. Nothing is summed for t < 0; at t = 0 the sum is c0,
      the mass of users converting at once. */
  function ExtConvertingWithin(k: Kernels, p: ConversionParams, t: int): (r: real)
    ensures t < 0 ==> r == 0.0
    ensures t == 0 ==> r == p.c0
  {
    var f := RegularizedFn(ExtRawFn(k, p));
    assert SumTo(1, f) == SumTo(0, f) + ExtRegularizedAt(k, p, 0);
    SumTo(t + 1, f)
  }

  /** From t = 1 on the cumulative probability is at least the first two periods' values
      c0 + P(t = 1), and grows by at most 1 per further period. */
  lemma {:induction false} ExtWithinFromFirstPeriod(k: Kernels, p: ConversionParams, t: int)
    requires t >= 1
    ensures p.c0 + ExtConvertingAt(k, p, 1) <= ExtConvertingWithin(k, p, t)
    ensures ExtConvertingWithin(k, p, t) <= p.c0 + ExtConvertingAt(k, p, 1) + ((t - 1) as real)
  {
    var f := RegularizedFn(ExtRawFn(k, p));
    assert SumTo(1, f) == SumTo(0, f) + ExtRegularizedAt(k, p, 0);
    assert SumTo(2, f) == SumTo(1, f) + ExtRegularizedAt(k, p, 1);
    RegularizedSumMonotone(ExtRawFn(k, p), 1, t);
  }

  /** From one period on the cumulative probability never decreases, and each further
      period adds at most 1. */
  lemma {:induction false} ExtWithinMonotone(k: Kernels, p: ConversionParams, s: int, t: int)
    requires 1 <= s <= t
    ensures ExtConvertingWithin(k, p, s) <= ExtConvertingWithin(k, p, t)
    ensures ExtConvertingWithin(k, p, t) <= ExtConvertingWithin(k, p, s) + ((t - s) as real)
  {
    RegularizedSumMonotone(ExtRawFn(k, p), s, t);
  }

  /** The BG/BB/BG summation term `ncr(t - 1, k) (-1)^k B(a + k + 1, b) B(e + k + 1, z + 1)`. */
  function BgbbbgTerm(k: Kernels, p: ConversionParams, t: int): int -> real {
    (m: int) => k.ncr(t - 1, m) * Sign(m) * k.beta(p.a + (m as real) + 1.0, p.b) * k.beta(p.e + (m as real) + 1.0, p.z + 1.0)
  }

  /** `BGBBBGFitter.expected_probability_of_converting_at_time`: B(e + 1, z) / B(e, z) at
      t = 0, otherwise the alive coefficient times the unweighted t-term sum; no
      regularisation. */
  function BgbbbgConvertingAt(k: Kernels, p: ConversionParams, t: int): (r: real)
    ensures t == 0 ==> r == FDiv(k, k.beta(p.e + 1.0, p.z), k.beta(p.e, p.z))
    ensures t < 0 ==> r == 0.0
  {
    if t == 0 then FDiv(k, k.beta(p.e + 1.0, p.z), k.beta(p.e, p.z))
    else AliveCoefficient(k, p, t) * SumTo(t, BgbbbgTerm(k, p, t))
  }

  function BgbbbgConvertingFn(k: Kernels, p: ConversionParams): int -> real {
    (t: int) => BgbbbgConvertingAt(k, p, t)
  }

  /** `BGBBBGFitter.expected_probability_of_converting_within_time`: the values summed
      over `range(t + 1)`; nothing for t < 0, and B(e + 1, z) / B(e, z) at t = 0. */
  function BgbbbgConvertingWithin(k: Kernels, p: ConversionParams, t: int): (r: real)
    ensures t < 0 ==> r == 0.0
    ensures t == 0 ==> r == FDiv(k, k.beta(p.e + 1.0, p.z), k.beta(p.e, p.z))
  {
    var f := BgbbbgConvertingFn(k, p);
    assert SumTo(1, f) == SumTo(0, f) + BgbbbgConvertingAt(k, p, 0);
    SumTo(t + 1, f)
  }

  /** The cumulative value adds one period's value per period. */
  lemma {:induction false} BgbbbgWithinStep(k: Kernels, p: ConversionParams, t: int)
    requires t >= 0
    ensures BgbbbgConvertingWithin(k, p, t) == BgbbbgConvertingWithin(k, p, t - 1) + BgbbbgConvertingAt(k, p, t)
  {
  }

  // ---------------------------------------------------------------------------
  // P(alive) matrix
  // ---------------------------------------------------------------------------

  /** `int(x)`: truncation toward zero, so the result has the sign of x and lies within
      one of it on the side of zero. */
  function Truncate(x: real): (r: int)
    ensures x >= 0.0 ==> r >= 0 && (r as real) <= x < (r as real) + 1.0
    ensures x < 0.0 ==> r <= 0 && (r as real) - 1.0 < x <= (r as real)
  {
    if x >= 0.0 then x.Floor else -((-x).Floor)
  }

  /** `column.max()` of a fitted data column; None for an empty column (pandas gives NaN,
      which `int` rejects). */
  function ColumnMax(column: seq<real>): (r: Option<real>)
    ensures r.None? <==> |column| == 0
    ensures r.Some? ==> (exists i :: 0 <= i < |column| && column[i] == r.value)
                        && forall i :: 0 <= i < |column| ==> column[i] <= r.value
  {
    if |column| == 0 then None
    else
      match ColumnMax(column[..|column| - 1])
      case None => Some(column[|column| - 1])
      case Some(m) => Some(if column[|column| - 1] > m then column[|column| - 1] else m)
  }

  /** `bound or int(self.data[column].max())`: an absent or zero bound falls back to the
      truncated column maximum. `column` is None while the fitter's `data` is still the class
      default None, and indexing it then raises a TypeError. */
  function BoundOrMax(bound: Option<int>, column: Option<seq<real>>): (r: Result<int, Error>)
    ensures bound.Some? && bound.value != 0 ==> r == Ok(bound.value)
    ensures (bound.None? || bound.value == 0) && column.None? ==> r == Err(NotSubscriptable)
    ensures (bound.None? || bound.value == 0) && column.Some? && |column.value| == 0 ==> r == Err(NanToInteger)
    ensures (bound.None? || bound.value == 0) && column.Some? && |column.value| > 0 ==>
              r == Ok(Truncate(ColumnMax(column.value).value))
  {
    if bound.Some? && bound.value != 0 then Ok(bound.value)
    else if column.None? then Err(NotSubscriptable)
    else match ColumnMax(column.value)
      case None => Err(NanToInteger)
      case Some(m) => Ok(Truncate(m))
  }

  /** The two nested loops over an array of zeros with `rows` rows and `cols` columns:
      `Z[i, j] = P_alive(frequency=j, recency=i, T=age)`. */
  method FillAliveMatrix(pAlive: (int, int, int) -> real, rows: nat, cols: nat, age: int) returns (Z: array2<real>)
    ensures Z.Length0 == rows && Z.Length1 == cols
    ensures forall i, j :: 0 <= i < rows && 0 <= j < cols ==> Z[i, j] == pAlive(j, i, age)
  {
    Z := new real[rows, cols]((_, _) => 0.0);
    var i := 0;
    while i < rows
      invariant 0 <= i <= rows
      invariant forall r, c :: 0 <= r < i && 0 <= c < cols ==> Z[r, c] == pAlive(c, r, age)
    {
      var j := 0;
      while j < cols
        invariant 0 <= j <= cols
        invariant forall r, c :: 0 <= r < i && 0 <= c < cols ==> Z[r, c] == pAlive(c, r, age)
        invariant forall c :: 0 <= c < j ==> Z[i, c] == pAlive(c, i, age)
      {
        Z[i, j] := pAlive(j, i, age);
        j := j + 1;
      }
      i := i + 1;
    }
  }

  /** `conditional_probability_alive_matrix(max_frequency, max_recency)` of the Pareto/NBD
      and BG/NBD fitters. `s` is the fitter's parameter state and `names` the parameters
      `conditional_probability_alive` unloads on every call; `pAlive` is that method's
      formula over the unloaded values. The columns are those of the fitter's `data`, None
      before a fit. A bound below -1 asks numpy for a negative dimension. The unload is
      attempted once, at the first cell: the state does not change during the loops, so
      every later unload returns the same values, and no unload happens when the matrix
      has no cell. */
  method ProbabilityAliveMatrix(pAlive: (seq<real>, int, int, int) -> real, s: FitState, names: seq<string>,
                                maxFrequency: Option<int>, maxRecency: Option<int>,
                                frequencyColumn: Option<seq<real>>, ageColumn: Option<seq<real>>)
    returns (r: Result<array2<real>, Error>)
    ensures BoundOrMax(maxFrequency, frequencyColumn).Err? ==> r == Err(BoundOrMax(maxFrequency, frequencyColumn).error)
    ensures BoundOrMax(maxFrequency, frequencyColumn).Ok? && BoundOrMax(maxRecency, ageColumn).Err? ==>
              r == Err(BoundOrMax(maxRecency, ageColumn).error)
    ensures BoundOrMax(maxFrequency, frequencyColumn).Ok? && BoundOrMax(maxRecency, ageColumn).Ok? ==>
      var F, R := BoundOrMax(maxFrequency, frequencyColumn).value, BoundOrMax(maxRecency, ageColumn).value;
      ((F < -1 || R < -1) ==> r == Err(NegativeDimensions)) &&
      (F >= 0 && R >= 0 && UnloadParamsAsWritten(s, names).Err? ==> r == Err(UnloadParamsAsWritten(s, names).error)) &&
      (r.Ok? <==> F >= -1 && R >= -1 && (F == -1 || R == -1 || UnloadParamsAsWritten(s, names).Ok?)) &&
      (r.Ok? ==> r.value.Length0 == R + 1 && r.value.Length1 == F + 1) &&
      (r.Ok? && F >= 0 && R >= 0 ==>
         forall i, j :: 0 <= i < R + 1 && 0 <= j < F + 1 ==>
           r.value[i, j] == pAlive(UnloadParamsAsWritten(s, names).value, j, i, R))
  {
    var f := BoundOrMax(maxFrequency, frequencyColumn);
    var rec := BoundOrMax(maxRecency, ageColumn);
    if f.Err? {
      return Err(f.error);
    }
    if rec.Err? {
      return Err(rec.error);
    }
    if f.value < -1 || rec.value < -1 {
      return Err(NegativeDimensions);
    }
    var params: seq<real> := [];
    if f.value >= 0 && rec.value >= 0 {
      var unloaded := UnloadParamsAsWritten(s, names);
      if unloaded.Err? {
        return Err(unloaded.error);
      }
      params := unloaded.value;
    }
    var age := rec.value;
    var Z := FillAliveMatrix((x, tx, T) => pAlive(params, x, tx, T), rec.value + 1, f.value + 1, age);
    return Ok(Z);
  }
}
