// The likelihood evaluators of lifetimes/estimation.py (`_negative_log_likelihood` of
// every fitter): the feasibility guards that return +inf, the weighting of per-row
// log-likelihoods by the compressed-row weights N, the finite sum of the BG/BB
// likelihood and its per-row loop, the Beta-term choice of the BG likelihood, and the
// parameter ordering inside the Pareto/NBD term `_log_A_0`. Special functions are the
// uninterpreted kernels of `Common.Kernels`.

module Likelihood {
  import opened Common
  import opened AgeExpansion

  // ---------------------------------------------------------------------------
  // Weighting of per-row contributions
  // ---------------------------------------------------------------------------

  /** One weighted contribution `llj * Nj`. */
  function Weighted(x: real, n: int): real {
    x * (n as real)
  }

  /** `llj * N`, elementwise. */
  function Products(ll: seq<real>, w: seq<int>): (r: seq<real>)
    requires |ll| == |w|
    ensures |r| == |ll|
    ensures forall j :: 0 <= j < |ll| ==> r[j] == Weighted(ll[j], w[j])
  {
    seq(|ll|, j requires 0 <= j < |ll| => Weighted(ll[j], w[j]))
  }

  /** `-(llj * N).sum()` when weights are given, `-llj.sum()` when N is None. */
  function NegWeightedSum(ll: seq<real>, N: Option<seq<int>>): real
    requires N.Some? ==> |N.value| == |ll|
  {
    match N
    case None => -Sum(ll)
    case Some(w) => -Sum(Products(ll, w))
  }

  lemma {:induction false} WeightedStep(x: real, n: int)
    ensures Weighted(x, n) == Weighted(x, n - 1) + x
  {
    assert x * (n as real) == x * ((n - 1) as real) + x;
  }

  lemma {:induction false} SumRepeat(x: real, n: int)
    ensures Sum(Repeat(x, n)) == Weighted(x, Pos(n))
    decreases n
  {
    if n > 0 {
      SumRepeat(x, n - 1);
      SumCons(x, Repeat(x, n - 1));
      WeightedStep(x, n);
    }
  }

  lemma {:induction false} ProductsCons(ll: seq<real>, w: seq<int>)
    requires |ll| == |w| > 0
    ensures Sum(Products(ll, w)) == Weighted(ll[0], w[0]) + Sum(Products(ll[1..], w[1..]))
  {
    var P := Products(ll, w);
    var Q := Products(ll[1..], w[1..]);
    assert P[1..] == Q;
    assert P == [P[0]] + Q;
    SumCons(P[0], Q);
  }

  lemma {:induction false} SumProductsIsSumExpand(ll: seq<real>, w: seq<int>)
    requires |ll| == |w|
    requires forall j :: 0 <= j < |w| ==> w[j] >= 0
    ensures Sum(Products(ll, w)) == Sum(Expand(ll, w))
    decreases |ll|
  {
    if |ll| > 0 {
      SumProductsIsSumExpand(ll[1..], w[1..]);
      ProductsCons(ll, w);
      SumAppend(Repeat(ll[0], w[0]), Expand(ll[1..], w[1..]));
      SumRepeat(ll[0], w[0]);
    }
  }

  /** A weight N_j counts row j N_j times: the weighted objective of compressed rows is
      the unweighted objective of the rows they stand for. */
  lemma {:induction false} WeightedIsExpanded(ll: seq<real>, w: seq<int>)
    requires |ll| == |w|
    requires forall j :: 0 <= j < |w| ==> w[j] >= 0
    ensures NegWeightedSum(ll, Some(w)) == NegWeightedSum(Expand(ll, w), None)
  {
    SumProductsIsSumExpand(ll, w);
  }

  /** Absent weights behave like all-ones weights. */
  lemma {:induction false} AllOnesWeights(ll: seq<real>)
    ensures NegWeightedSum(ll, Some(Ones(|ll|))) == NegWeightedSum(ll, None)
  {
    WeightedIsExpanded(ll, Ones(|ll|));
    ExpandOnes(ll, Ones(|ll|));
  }

  /** The same for any per-row function: evaluating the rows and weighting the values is
      evaluating the expanded rows. */
  lemma {:induction false} WeightedMapIsExpanded<A>(f: A -> real, rows: seq<A>, N: seq<int>)
    requires |N| == |rows|
    requires forall j :: 0 <= j < |N| ==> N[j] >= 0
    ensures NegWeightedSum(Map(f, rows), Some(N)) == NegWeightedSum(Map(f, Expand(rows, N)), None)
    ensures NegWeightedSum(Map(f, rows), Some(Ones(|rows|))) == NegWeightedSum(Map(f, rows), None)
  {
    MapExpand(f, rows, N);
    WeightedIsExpanded(Map(f, rows), N);
    AllOnesWeights(Map(f, rows));
  }

  /** A single unweighted row contributes minus its own value. */
  lemma {:induction false} OneRowSum<A>(f: A -> real, row: A)
    ensures NegWeightedSum(Map(f, [row]), None) == -f(row)
  {
    assert Map(f, [row]) == [f(row)] + [];
    SumCons(f(row), []);
  }

  lemma {:induction false} UnitsIsSumInt(ns: seq<int>)
    requires forall j :: 0 <= j < |ns| ==> ns[j] >= 0
    ensures Units(ns) == SumInt(ns)
    decreases |ns|
  {
    if |ns| > 0 {
      UnitsIsSumInt(ns[1..]);
      assert ns == [ns[0]] + ns[1..];
      SumIntCons(ns[0], ns[1..]);
    }
  }

  // ---------------------------------------------------------------------------
  // Pareto/NBD
  // ---------------------------------------------------------------------------

  /** The choice at the head of `_log_A_0`: the smaller and the larger of alpha and
      beta, and the second hypergeometric parameter. */
  datatype HypChoice = HypChoice(lo: real, hi: real, t: real)

  function SelectHyp(r: real, alpha: real, s: real, beta: real, x: real): (c: HypChoice)
    ensures c.lo <= c.hi
    ensures (c.lo == alpha && c.hi == beta) || (c.lo == beta && c.hi == alpha)
    ensures c.t == (if alpha < beta then r + x else s + 1.0)
  {
    if alpha < beta then HypChoice(alpha, beta, r + x) else HypChoice(beta, alpha, s + 1.0)
  }

  /** The hypergeometric argument `(max - min) / (max + z)` of `_log_A_0`. */
  function HypArgument(c: HypChoice, z: real): real
    requires c.hi + z != 0.0
  {
    (c.hi - c.lo) / (c.hi + z)
  }

  /** For positive alpha and beta and a non-negative recency or age z, the argument of
      both hypergeometric calls stays in [0, 1), the domain where the series converges. */
  lemma {:induction false} HypArgumentInUnitInterval(r: real, alpha: real, s: real, beta: real, x: real, z: real)
    requires alpha > 0.0 && beta > 0.0 && z >= 0.0
    ensures SelectHyp(r, alpha, s, beta, x).hi + z > 0.0
    ensures 0.0 <= HypArgument(SelectHyp(r, alpha, s, beta, x), z) < 1.0
  {
    var c := SelectHyp(r, alpha, s, beta, x);
    var d := c.hi + z;
    var q := HypArgument(c, z);
    assert c.lo > 0.0;
    assert q * d == c.hi - c.lo < d;
    if q >= 1.0 {
      AtLeastOneScales(q, d);
      assert false;
    }
  }

  lemma {:induction false} AtLeastOneScales(q: real, d: real)
    requires q >= 1.0 && d > 0.0
    ensures q * d >= d
  {
    assert q * d == d + (q - 1.0) * d;
  }

  /** One argument of the signed log-sum-exp of `_log_A_0`: `log(p_i) + rsf * log(q_j)`,
      with p_i the hypergeometric value whose argument has the denominator q_i. */
  function A0Term(k: Kernels, c: HypChoice, rsf: real, qi: real, qj: real): real {
    k.log(k.hyp2f1(rsf, c.t, rsf + 1.0, FDiv(k, c.hi - c.lo, qi))) + rsf * k.log(qj)
  }

  /** `rsf * log(q_1 * q_2)`. */
  function A0Scale(k: Kernels, rsf: real, q1: real, q2: real): real {
    rsf * k.log(q1 * q2)
  }

  /** `_log_A_0(params, frequency, recency, age)` for one history, with q_1 = max + t_x
      and q_2 = max + T. */
  function LogA0(k: Kernels, r: real, alpha: real, s: real, beta: real, h: History): real {
    var c := SelectHyp(r, alpha, s, beta, h.frequency);
    var rsf := r + s + h.frequency;
    var q1 := c.hi + h.recency;
    var q2 := c.hi + h.age;
    k.signedLogSumExp(A0Term(k, c, rsf, q1, q2), A0Term(k, c, rsf, q2, q1)) - A0Scale(k, rsf, q1, q2)
  }

  /** For a customer whose last purchase is at the end of observation (t_x = T) the two
      signed log-sum-exp arguments coincide, so A_0 is the logarithm of the difference of
      two equal terms. */
  lemma {:induction false} LogA0AtEndOfObservation(k: Kernels, r: real, alpha: real, s: real, beta: real, h: History)
    requires h.recency == h.age
    ensures var c := SelectHyp(r, alpha, s, beta, h.frequency);
            var rsf := r + s + h.frequency;
            var q := c.hi + h.age;
            var w := A0Term(k, c, rsf, q, q);
            LogA0(k, r, alpha, s, beta, h) == k.signedLogSumExp(w, w) - A0Scale(k, rsf, q, q)
  {
  }

  function ParetoRowLogLik(k: Kernels, p: seq<real>, h: History): real
    requires |p| == 4
  {
    var r, alpha, s, beta := p[0], p[1], p[2], p[3];
    var x := h.frequency;
    var a1 := k.gammaln(r + x) - k.gammaln(r) + r * k.log(alpha) + s * k.log(beta);
    var a2 := k.logaddexp(-(r + x) * k.log(alpha + h.age) - s * k.log(beta + h.age),
                          k.log(s) + LogA0(k, r, alpha, s, beta, h) - k.log(r + s + x));
    a1 + a2
  }

  /** `ParetoNBDFitter._negative_log_likelihood`: +inf exactly when a parameter is <= 0. */
  function ParetoNbdNegLogLik(k: Kernels, params: seq<real>, rows: seq<History>, penalizer: real): (r: Objective)
    requires |params| == 4
    ensures r.Inf? <==> AnyNonPositive(params)
  {
    if AnyNonPositive(params) then Inf
    else Finite(-Sum(seq(|rows|, j requires 0 <= j < |rows| => ParetoRowLogLik(k, params, rows[j])))
                + penalizer * SumLog(k, params))
  }

  // ---------------------------------------------------------------------------
  // BG/NBD and MBG/NBD
  // ---------------------------------------------------------------------------

  /** One row of the BG/NBD likelihood. The second log-sum-exp term carries the weight
      `frequency > 0`, so a row without repeat purchases contributes A_3 alone; that is
      what the masking of non-finite A_4 values achieves. */
  function BgNbdRowLogLik(k: Kernels, p: seq<real>, h: History): real
    requires |p| == 4
  {
    var r, alpha, a, b := p[0], p[1], p[2], p[3];
    var x := h.frequency;
    var a1 := k.gammaln(r + x) - k.gammaln(r) + r * k.log(alpha);
    var a2 := k.gammaln(a + b) + k.gammaln(b + x) - k.gammaln(b) - k.gammaln(a + b + x);
    var a3 := -(r + x) * k.log(alpha + h.age);
    var a4 := k.log(a) - k.log(b + x - 1.0) - (r + x) * k.log(h.recency + alpha);
    a1 + a2 + (if x > 0.0 then k.logaddexp(a3, a4) else a3)
  }

  /** `BetaGeoFitter._negative_log_likelihood`: +inf exactly when a parameter is <= 0. */
  function BgNbdNegLogLik(k: Kernels, params: seq<real>, rows: seq<History>, penalizer: real): (r: Objective)
    requires |params| == 4
    ensures r.Inf? <==> AnyNonPositive(params)
  {
    if AnyNonPositive(params) then Inf
    else Finite(-Sum(seq(|rows|, j requires 0 <= j < |rows| => BgNbdRowLogLik(k, params, rows[j])))
                + penalizer * SumLog(k, params))
  }

  function MbgNbdRowLogLik(k: Kernels, p: seq<real>, h: History): real
    requires |p| == 4
  {
    var r, alpha, a, b := p[0], p[1], p[2], p[3];
    var x := h.frequency;
    var a1 := k.gammaln(r + x) - k.gammaln(r) + r * k.log(alpha);
    var a2 := k.gammaln(a + b) + k.gammaln(b + x + 1.0) - k.gammaln(b) - k.gammaln(a + b + x + 1.0);
    var a3 := -(r + x) * k.log(alpha + h.age);
    var a4 := k.log(a) - k.log(b + x) + (r + x) * (k.log(alpha + h.age) - k.log(alpha + h.recency));
    a1 + a2 + a3 + k.log(k.exp(a4) + 1.0)
  }

  /** `ModifiedBetaGeoFitter._negative_log_likelihood`: +inf exactly when a parameter is <= 0. */
  function MbgNbdNegLogLik(k: Kernels, params: seq<real>, rows: seq<History>, penalizer: real): (r: Objective)
    requires |params| == 4
    ensures r.Inf? <==> AnyNonPositive(params)
  {
    if AnyNonPositive(params) then Inf
    else Finite(-Sum(seq(|rows|, j requires 0 <= j < |rows| => MbgNbdRowLogLik(k, params, rows[j])))
                + penalizer * SumLog(k, params))
  }

  // ---------------------------------------------------------------------------
  // Gamma-Gamma
  // ---------------------------------------------------------------------------

  /** One customer of the monetary model: purchase count x and average value m. */
  datatype MonetaryRow = MonetaryRow(frequency: real, monetary: real)

  function GammaGammaRowLogLik(k: Kernels, p: seq<real>, row: MonetaryRow): real
    requires |p| == 3
  {
    var pp, q, v := p[0], p[1], p[2];
    var x, m := row.frequency, row.monetary;
    k.gammaln(pp * x + q) - k.gammaln(pp * x) - k.gammaln(q) + q * k.log(v)
      + (pp * x - 1.0) * k.log(m) + (pp * x) * k.log(x) - (pp * x + q) * k.log(x * m + v)
  }

  function GammaGammaValue(k: Kernels, params: seq<real>, rows: seq<MonetaryRow>, penalizer: real): real
    requires |params| == 3
  {
    -Sum(seq(|rows|, j requires 0 <= j < |rows| => GammaGammaRowLogLik(k, params, rows[j])))
      + penalizer * SumLog(k, params)
  }

  /** `any(i < 0 for i in params)`. */
  predicate AnyNegative(ps: seq<real>) {
    exists i :: 0 <= i < |ps| && ps[i] < 0.0
  }

  /** `GammaGammaFitter._negative_log_likelihood` as written: only a strictly negative
      parameter gives +inf. */
  function GammaGammaNegLogLikAsWritten(k: Kernels, params: seq<real>, rows: seq<MonetaryRow>, penalizer: real): (r: Objective)
    requires |params| == 3
    ensures r.Inf? <==> AnyNegative(params)
  {
    if AnyNegative(params) then Inf else Finite(GammaGammaValue(k, params, rows, penalizer))
  }

  /** The guard as the other evaluators have it: any parameter <= 0 gives +inf. */
  function GammaGammaNegLogLik(k: Kernels, params: seq<real>, rows: seq<MonetaryRow>, penalizer: real): (r: Objective)
    requires |params| == 3
    ensures r.Inf? <==> AnyNonPositive(params)
    ensures r.Finite? ==> r == GammaGammaNegLogLikAsWritten(k, params, rows, penalizer)
  {
    if AnyNonPositive(params) then Inf else Finite(GammaGammaValue(k, params, rows, penalizer))
  }

  /** A zero shape parameter passes the written guard and reaches gammaln(0) and log(0),
      where the corrected guard returns +inf. */
  lemma {:induction false} GammaGammaZeroParameterAccepted(k: Kernels, q: real, v: real, rows: seq<MonetaryRow>, penalizer: real)
    requires q >= 0.0 && v >= 0.0
    ensures GammaGammaNegLogLikAsWritten(k, [0.0, q, v], rows, penalizer).Finite?
    ensures GammaGammaNegLogLik(k, [0.0, q, v], rows, penalizer).Inf?
  {
    assert [0.0, q, v][0] <= 0.0;
  }

  // ---------------------------------------------------------------------------
  // BG/BB
  // ---------------------------------------------------------------------------

  /** `range(n)` as a sequence of indices; empty when n <= 0. */
  function PyRange(n: int): (r: seq<int>)
    ensures |r| == Pos(n)
    ensures forall m :: 0 <= m < |r| ==> r[m] == m
  {
    seq(Pos(n), m requires 0 <= m < Pos(n) => m)
  }

  /** The indices of the finite sum of one row: `range(int(T - tx - 1 + 1))`, equally
      `np.arange((T - tx - 1) + 1)` of the vector path; for integer histories the two agree. */
  function BgbbSumIndices(row: DiscreteRow): seq<int> {
    PyRange(row.age - row.recency - 1 + 1)
  }

  /** The sum has exactly T - t_x terms, with indices 0 .. T - t_x - 1, and none when
      t_x >= T. */
  lemma {:induction false} BgbbSumRange(row: DiscreteRow)
    ensures row.recency <= row.age ==> |BgbbSumIndices(row)| == row.age - row.recency
    ensures row.recency >= row.age ==> BgbbSumIndices(row) == []
    ensures forall m :: 0 <= m < |BgbbSumIndices(row)| ==> BgbbSumIndices(row)[m] == m
  {
  }

  /** `beta(a + x, b + T - x) * beta(g, d + T)`, the term for a customer alive at T. */
  function BgbbBase(k: Kernels, p: seq<real>, row: DiscreteRow): real
    requires |p| == 4
  {
    var a, b, g, d := p[0], p[1], p[2], p[3];
    var x, T := row.frequency as real, row.age as real;
    k.beta(a + x, b + T - x) * k.beta(g, d + T)
  }

  /** Term i of the finite sum: churn right after period t_x + i. */
  function BgbbTerm(k: Kernels, p: seq<real>, row: DiscreteRow, i: int): real
    requires |p| == 4
  {
    var a, b, g, d := p[0], p[1], p[2], p[3];
    var x, tx := row.frequency as real, row.recency as real;
    k.beta(a + x, b + tx - x + (i as real)) * k.beta(g + 1.0, d + tx + (i as real))
  }

  function BgbbTerms(k: Kernels, p: seq<real>, row: DiscreteRow): seq<real>
    requires |p| == 4
  {
    var idx := BgbbSumIndices(row);
    seq(|idx|, m requires 0 <= m < |idx| => BgbbTerm(k, p, row, idx[m]))
  }

  /** The likelihood numerator of one row. */
  function BgbbNumerator(k: Kernels, p: seq<real>, row: DiscreteRow): real
    requires |p| == 4
  {
    BgbbBase(k, p, row) + Sum(BgbbTerms(k, p, row))
  }

  /** A customer whose last purchase is in the last period (t_x >= T) contributes only
      the alive-at-T term; one whose last purchase is one period earlier adds exactly one
      churn term, that of churning right after t_x. */
  lemma {:induction false} BgbbNumeratorShortHistories(k: Kernels, p: seq<real>, row: DiscreteRow)
    requires |p| == 4
    ensures row.recency >= row.age ==> BgbbNumerator(k, p, row) == BgbbBase(k, p, row)
    ensures row.recency + 1 == row.age ==> BgbbNumerator(k, p, row) == BgbbBase(k, p, row) + BgbbTerm(k, p, row, 0)
  {
    BgbbSumRange(row);
    var terms := BgbbTerms(k, p, row);
    if row.recency >= row.age {
      assert terms == [];
    } else if row.recency + 1 == row.age {
      assert |terms| == 1 && terms[0] == BgbbTerm(k, p, row, 0);
      assert terms[..0] == [];
      assert Sum(terms) == terms[0];
    }
  }

  /** The loop of the vector path, `numerator[j] += np.sum(...)` for each row j in turn:
      every entry gains the sum of its own row and no other. */
  method AddRowSums<R>(numerator: array<real>, rows: seq<R>, rowSum: R -> real)
    requires numerator.Length == |rows|
    modifies numerator
    ensures forall j :: 0 <= j < |rows| ==> numerator[j] == old(numerator[j]) + rowSum(rows[j])
  {
    var j := 0;
    while j < |rows|
      invariant 0 <= j <= |rows|
      invariant forall m :: 0 <= m < j ==> numerator[m] == old(numerator[m]) + rowSum(rows[m])
      invariant forall m :: j <= m < |rows| ==> numerator[m] == old(numerator[m])
    {
      numerator[j] := numerator[j] + rowSum(rows[j]);
      j := j + 1;
    }
  }

  /** The vector path: the base terms are computed for all rows at once and then the
      loop adds each row's finite sum to `numerator[j]` only. */
  method BgbbNumeratorVector(k: Kernels, p: seq<real>, rows: seq<DiscreteRow>) returns (numerator: array<real>)
    requires |p| == 4
    ensures numerator.Length == |rows|
    ensures forall j :: 0 <= j < |rows| ==> numerator[j] == BgbbNumerator(k, p, rows[j])
  {
    numerator := new real[|rows|](j requires 0 <= j < |rows| => BgbbBase(k, p, rows[j]));
    AddRowSums(numerator, rows, (row: DiscreteRow) => Sum(BgbbTerms(k, p, row)));
  }

  function BgbbRowLogLik(k: Kernels, p: seq<real>, row: DiscreteRow): real
    requires |p| == 4
  {
    var denominator := k.beta(p[0], p[1]) * k.beta(p[2], p[3]);
    k.log(FDiv(k, BgbbNumerator(k, p, row), denominator))
  }

  function BgbbRowFn(k: Kernels, p: seq<real>): DiscreteRow -> real
    requires |p| == 4
  {
    (row: DiscreteRow) => BgbbRowLogLik(k, p, row)
  }

  /** What `BGBBFitter._negative_log_likelihood` returns: a plain objective, or with
      `jac=True` an objective and its gradient. */
  datatype BgbbValue = Plain(objective: Objective) | WithGradient(objective: Objective, gradient: seq<real>)

  /** `BGBBFitter._negative_log_likelihood`. Infeasible parameters give +inf, and with
      `jac` the pair (inf, [0, 0, 0, 0]). In gradient mode the returned objective is the
      weighted log-likelihood without the penalizer term. */
  function BgbbNegLogLik(k: Kernels, params: seq<real>, rows: seq<DiscreteRow>, penalizer: real,
                         N: Option<seq<int>>, jac: bool): (r: BgbbValue)
    requires |params| == 4
    requires N.Some? ==> |N.value| == |rows|
    ensures r.WithGradient? <==> jac
    ensures r.objective.Inf? <==> AnyNonPositive(params)
    ensures AnyNonPositive(params) && jac ==> r.gradient == [0.0, 0.0, 0.0, 0.0]
  {
    if AnyNonPositive(params) then
      (if jac then WithGradient(Inf, [0.0, 0.0, 0.0, 0.0]) else Plain(Inf))
    else
      var ll := NegWeightedSum(Map(BgbbRowFn(k, params), rows), N);
      if jac then WithGradient(Finite(ll), k.bgbbGradient(params, rows, N))
      else Plain(Finite(ll + penalizer * SumLog(k, params)))
  }

  /** The two modes differ by exactly the penalizer term on feasible parameters. */
  lemma {:induction false} BgbbGradientModeOmitsPenalty(k: Kernels, params: seq<real>, rows: seq<DiscreteRow>, penalizer: real, N: Option<seq<int>>)
    requires |params| == 4
    requires N.Some? ==> |N.value| == |rows|
    requires !AnyNonPositive(params)
    ensures BgbbNegLogLik(k, params, rows, penalizer, N, false).objective.value
         == BgbbNegLogLik(k, params, rows, penalizer, N, true).objective.value + penalizer * SumLog(k, params)
  {
    var ll := NegWeightedSum(Map(BgbbRowFn(k, params), rows), N);
    assert BgbbNegLogLik(k, params, rows, penalizer, N, true).objective == Finite(ll);
    assert BgbbNegLogLik(k, params, rows, penalizer, N, false).objective == Finite(ll + penalizer * SumLog(k, params));
  }

  /** Weighted BG/BB rows evaluate like the uncompressed rows they stand for. */
  lemma {:induction false} BgbbCompressedIsExpanded(k: Kernels, params: seq<real>, rows: seq<DiscreteRow>, penalizer: real, N: seq<int>)
    requires |params| == 4
    requires |N| == |rows|
    requires forall j :: 0 <= j < |N| ==> N[j] >= 0
    ensures BgbbNegLogLik(k, params, rows, penalizer, Some(N), false)
         == BgbbNegLogLik(k, params, Expand(rows, N), penalizer, None, false)
  {
    WeightedMapIsExpanded(BgbbRowFn(k, params), rows, N);
  }

  /** Absent BG/BB weights behave like all-ones weights. */
  lemma {:induction false} BgbbOnesIsUnweighted(k: Kernels, params: seq<real>, rows: seq<DiscreteRow>, penalizer: real)
    requires |params| == 4
    ensures BgbbNegLogLik(k, params, rows, penalizer, Some(Ones(|rows|)), false)
         == BgbbNegLogLik(k, params, rows, penalizer, None, false)
  {
    AllOnesWeights(Map(BgbbRowFn(k, params), rows));
  }

  // ---------------------------------------------------------------------------
  // BG/BB/BG and its extension with a never-converting mass c0
  // ---------------------------------------------------------------------------

  /** A session history with the number of sessions before the first conversion. */
  datatype SessionRow = SessionRow(history: DiscreteRow, beforeConversion: int)

  function Histories(rows: seq<SessionRow>): (r: seq<DiscreteRow>)
    ensures |r| == |rows|
  {
    seq(|rows|, j requires 0 <= j < |rows| => rows[j].history)
  }

  /** `mask = x >= xc`, as 0 or 1: the purchase term adds one to e exactly when the
      customer has purchased at least as often as before converting. */
  function Mask(row: SessionRow): (r: real)
    ensures r == 1.0 || r == 0.0
    ensures r == 1.0 <==> row.history.frequency >= row.beforeConversion
  {
    if row.history.frequency >= row.beforeConversion then 1.0 else 0.0
  }

  function BgbbbgPurchaseLogLik(k: Kernels, e: real, z: real, row: SessionRow): real {
    k.log(FDiv(k, k.beta(e + Mask(row), z + (row.beforeConversion as real)), k.beta(e, z)))
  }

  /** `BGBBBGFitter._negative_log_likelihood`: the conversion term plus the BG/BB
      objective of (alpha, beta, gamma, delta); +inf exactly when a parameter is <= 0. */
  function BgbbbgNegLogLik(k: Kernels, params: seq<real>, rows: seq<SessionRow>, penalizer: real, N: Option<seq<int>>): (r: Objective)
    requires |params| == 6
    requires N.Some? ==> |N.value| == |rows|
    ensures r.Inf? <==> AnyNonPositive(params)
  {
    if AnyNonPositive(params) then Inf
    else
      var e, z := params[4], params[5];
      var purchases := seq(|rows|, j requires 0 <= j < |rows| => BgbbbgPurchaseLogLik(k, e, z, rows[j]));
      var base := BgbbNegLogLik(k, params[..4], Histories(rows), penalizer, N, false).objective;
      Finite(NegWeightedSum(purchases, N) + base.value)
  }

  /** `c0 * (xc == 0) + (1 - c0) * beta(e + mask, z + xc - 1) / beta(e, z) * (xc != 0)`. */
  function ExtPurchaseLogLik(k: Kernels, e: real, z: real, c0: real, row: SessionRow): real {
    if row.beforeConversion == 0 then k.log(c0)
    else k.log((1.0 - c0) * FDiv(k, k.beta(e + Mask(row), z + (row.beforeConversion as real) - 1.0), k.beta(e, z)))
  }

  /** `BGBBBGExtFitter._negative_log_likelihood`: +inf exactly when a parameter is <= 0
      or the mixture weight c0 is >= 1. */
  function BgbbbgExtNegLogLik(k: Kernels, params: seq<real>, rows: seq<SessionRow>, penalizer: real, N: Option<seq<int>>): (r: Objective)
    requires |params| == 7
    requires N.Some? ==> |N.value| == |rows|
    ensures r.Inf? <==> AnyNonPositive(params) || params[6] >= 1.0
  {
    if AnyNonPositive(params) then Inf
    else if params[6] >= 1.0 then Inf
    else
      var e, z, c0 := params[4], params[5], params[6];
      var purchases := seq(|rows|, j requires 0 <= j < |rows| => ExtPurchaseLogLik(k, e, z, c0, rows[j]));
      var base := BgbbNegLogLik(k, params[..4], Histories(rows), penalizer, N, false).objective;
      Finite(NegWeightedSum(purchases, N) + base.value)
  }

  // ---------------------------------------------------------------------------
  // BG (contractual, discrete churn)
  // ---------------------------------------------------------------------------

  datatype BgRow = BgRow(frequency: int, age: int)

  /** The vector path: `beta(a + (x < T), b + x)`. A customer who churned before the end
      of observation (x < T) adds one to a; every customer adds x to b. */
  function BgNumeratorArgs(a: real, b: real, row: BgRow): (r: BetaArgs)
    ensures r.x == a + 1.0 <==> row.frequency < row.age
    ensures r.x == a <==> row.frequency >= row.age
    ensures r.y == b + (row.frequency as real)
  {
    BetaArgs(a + (if row.frequency < row.age then 1.0 else 0.0), b + (row.frequency as real))
  }

  /** The scalar path: `beta(a + 1, b + x)` when x < T, `beta(a, b + x)` when x == T,
      and a zero numerator (None) when x > T. */
  function BgScalarNumerator(a: real, b: real, x: int, T: int): Option<BetaArgs> {
    if x < T then Some(BetaArgs(a + 1.0, b + (x as real)))
    else if x == T then Some(BetaArgs(a, b + (x as real)))
    else None
  }

  /** The scalar path has a numerator exactly for the histories the model admits
      (x <= T), and there it agrees with the vector path. */
  lemma {:induction false} BgLikelihoodBranch(a: real, b: real, x: int, T: int)
    ensures x <= T <==> BgScalarNumerator(a, b, x, T).Some?
    ensures x <= T ==> BgScalarNumerator(a, b, x, T) == Some(BgNumeratorArgs(a, b, BgRow(x, T)))
  {
  }

  /** `Ntot`: the sum of the weights when they are given, the number of rows otherwise. */
  function BgRowCount(rows: seq<BgRow>, N: Option<seq<int>>): int {
    match N
    case None => |rows|
    case Some(w) => SumInt(w)
  }

  function BgRowLogLik(k: Kernels, a: real, b: real, row: BgRow): real {
    k.log(BetaOf(k, BgNumeratorArgs(a, b, row)))
  }

  function BgRowFn(k: Kernels, a: real, b: real): BgRow -> real {
    (row: BgRow) => BgRowLogLik(k, a, b, row)
  }

  /** `ll + Ntot * log(beta(a, b)) + penalty`. */
  function BgObjectiveValue(ll: real, count: int, logBeta: real, penalty: real): real {
    ll + (count as real) * logBeta + penalty
  }

  /** `BGFitter._negative_log_likelihood` (vector path): only alpha and beta are checked,
      and +inf is returned exactly when one of them is <= 0. */
  function BgNegLogLik(k: Kernels, params: seq<real>, rows: seq<BgRow>, penalizer: real, N: Option<seq<int>>): (r: Objective)
    requires |params| >= 2
    requires N.Some? ==> |N.value| == |rows|
    ensures r.Inf? <==> params[0] <= 0.0 || params[1] <= 0.0
  {
    var a, b := params[0], params[1];
    if a <= 0.0 || b <= 0.0 then Inf
    else
      var ll := NegWeightedSum(Map(BgRowFn(k, a, b), rows), N);
      Finite(BgObjectiveValue(ll, BgRowCount(rows, N), k.log(k.beta(a, b)), penalizer * SumLog(k, params)))
  }

  /** The weight of a single history as a one-row weight column. */
  function OneWeight(N: Option<int>): (r: Option<seq<int>>)
    ensures r.Some? <==> N.Some?
    ensures r.Some? ==> r.value == [N.value]
  {
    match N
    case None => None
    case Some(n) => Some([n])
  }

  /** `BGFitter._negative_log_likelihood` for a single history, with an optional weight N:
      a zero numerator when x > T makes the log-likelihood -inf and the objective +inf;
      a weight multiplies both the log-likelihood and the `Ntot * log(beta(a, b))` term. */
  function BgScalarNegLogLik(k: Kernels, params: seq<real>, x: int, T: int, penalizer: real, N: Option<int>): (r: Objective)
    requires |params| >= 2
    ensures r.Inf? <==> params[0] <= 0.0 || params[1] <= 0.0 || x > T
  {
    var a, b := params[0], params[1];
    if a <= 0.0 || b <= 0.0 then Inf
    else match BgScalarNumerator(a, b, x, T)
      case None => Inf
      case Some(args) =>
        var one := BgRow(x, T);
        Finite(BgObjectiveValue(NegWeightedSum([k.log(BetaOf(k, args))], OneWeight(N)), BgRowCount([one], OneWeight(N)),
                                k.log(k.beta(a, b)), penalizer * SumLog(k, params)))
  }

  /** On an admissible history the scalar path equals the vector path on one row, with
      the scalar weight as that row's weight. */
  lemma {:induction false} BgScalarIsOneRow(k: Kernels, params: seq<real>, x: int, T: int, penalizer: real, N: Option<int>)
    requires |params| >= 2
    requires x <= T
    ensures BgScalarNegLogLik(k, params, x, T, penalizer, N) == BgNegLogLik(k, params, [BgRow(x, T)], penalizer, OneWeight(N))
  {
    var a, b := params[0], params[1];
    if a > 0.0 && b > 0.0 {
      BgLikelihoodBranch(a, b, x, T);
      var f := BgRowFn(k, a, b);
      assert Map(f, [BgRow(x, T)]) == [f(BgRow(x, T))];
    }
  }

  /** A weight n scales the data part of a single history's objective by n: the
      objective without its penalty is n times that of the unweighted history. */
  lemma {:induction false} BgScalarWeightScales(k: Kernels, params: seq<real>, x: int, T: int, penalizer: real, n: int)
    requires |params| >= 2
    requires params[0] > 0.0 && params[1] > 0.0 && x <= T
    ensures BgScalarNegLogLik(k, params, x, T, penalizer, Some(n)).value - penalizer * SumLog(k, params)
            == (n as real) * (BgScalarNegLogLik(k, params, x, T, penalizer, None).value - penalizer * SumLog(k, params))
  {
    var a, b := params[0], params[1];
    var args := BgScalarNumerator(a, b, x, T).value;
    var l := k.log(BetaOf(k, args));
    var lb := k.log(k.beta(a, b));
    SumCons(Weighted(l, n), []);
    SumCons(l, []);
    assert Products([l], [n]) == [Weighted(l, n)];
    SumIntCons(n, []);
    assert (n as real) * (-l + lb) == -(l * (n as real)) + (n as real) * lb;
  }

  /** With all-ones weights `Ntot` is the number of rows. */
  lemma {:induction false} BgRowCountOnes(rows: seq<BgRow>)
    ensures BgRowCount(rows, Some(Ones(|rows|))) == BgRowCount(rows, None)
  {
    UnitsIsSumInt(Ones(|rows|));
    ExpandLength(rows, Ones(|rows|));
    ExpandOnes(rows, Ones(|rows|));
  }

  /** The weighted sum and `Ntot` of compressed BG rows are those of the expanded rows. */
  lemma {:induction false} BgWeightedPartsAreExpanded(f: BgRow -> real, rows: seq<BgRow>, N: seq<int>)
    requires |N| == |rows|
    requires forall j :: 0 <= j < |N| ==> N[j] >= 0
    ensures NegWeightedSum(Map(f, rows), Some(N)) == NegWeightedSum(Map(f, Expand(rows, N)), None)
    ensures BgRowCount(rows, Some(N)) == BgRowCount(Expand(rows, N), None)
    ensures NegWeightedSum(Map(f, rows), Some(Ones(|rows|))) == NegWeightedSum(Map(f, rows), None)
    ensures BgRowCount(rows, Some(Ones(|rows|))) == BgRowCount(rows, None)
  {
    WeightedMapIsExpanded(f, rows, N);
    UnitsIsSumInt(N);
    ExpandLength(rows, N);
    BgRowCountOnes(rows);
  }

  /** Weighted BG rows, `Ntot` included, evaluate like the uncompressed rows they stand
      for, and absent weights like all-ones weights. */
  lemma {:induction false} BgCompressedIsExpanded(k: Kernels, params: seq<real>, rows: seq<BgRow>, penalizer: real, N: seq<int>)
    requires |params| >= 2
    requires |N| == |rows|
    requires forall j :: 0 <= j < |N| ==> N[j] >= 0
    ensures BgNegLogLik(k, params, rows, penalizer, Some(N)) == BgNegLogLik(k, params, Expand(rows, N), penalizer, None)
    ensures BgNegLogLik(k, params, rows, penalizer, Some(Ones(|rows|))) == BgNegLogLik(k, params, rows, penalizer, None)
  {
    BgWeightedPartsAreExpanded(BgRowFn(k, params[0], params[1]), rows, N);
  }
}
