// Shared vocabulary of the model: result wrappers, the objective value handed to the
// optimiser, the error taxonomy, finite sums over reals, and the floating-point special
// functions, which are kept uninterpreted.

module Common {

  datatype Option<T> = None | Some(value: T)

  datatype Result<T, E> = Ok(value: T) | Err(error: E)

  datatype Outcome<E> = Pass | Fail(error: E)

  /** The value a likelihood evaluator hands to the optimiser: `Inf` is the `np.inf`
      returned for infeasible parameter proposals. */
  datatype Objective = Inf | Finite(value: real)

  /** A floating-point result that may be NaN (as `np.std` of an empty list is). */
  datatype Float = NaN | Num(v: real)

  /** The exceptions raised by the modelled code. */
  datatype Error =
    | NotFitted               // the "Model has not been fit yet" ValueError
    | NotSubscriptable        // TypeError of indexing `params_ = None`
    | NoCopyOnNone            // AttributeError of `None.copy()`
    | MissingKey(name: string)        // KeyError of a parameter name or data column that is absent
    | ShortParameterVector    // IndexError of `params[i]` on a too short vector
    | NotIntegers             // TypeError "t and n must be integers"
    | HorizonBelowCount       // ValueError "t must be >= n"
    | WrongDimensions         // ValueError "Covariance matrix: wrong dimensions"
    | RaggedMatrix            // a covariance matrix whose rows differ in length
    | MathDomain              // ValueError of math.sqrt of a negative number
    | FrequencyAboveAge       // ValueError "frequency vector are larger than T"
    | NegativeFrequency       // ValueError "frequency vector are < 0"
    | NegativeAge             // ValueError "T vector are < 0"
    | NanToInteger            // ValueError of int() applied to the NaN maximum of an empty column
    | NegativeDimensions      // ValueError of np.zeros with a negative dimension
    | NoGenerator             // AttributeError: an unfitted fitter has no generate_new_data
    | PercentileOutOfRange    // ValueError of np.percentile at a level outside [0, 100]

  /** A number as Python sees it: an `int` or a `float`. */
  datatype PyNumber = PyInt(i: int) | PyFloat(r: real)

  /** The parameter families whose hand-derived gradients the uncertainty propagator uses. */
  datatype Family = ParetoNbd | Bgbb | Bg

  /** One row of a discrete-time history: frequency x, recency t_x and age T. */
  datatype DiscreteRow = DiscreteRow(frequency: int, recency: int, age: int)

  /** One row of a continuous-time history. */
  datatype History = History(frequency: real, recency: real, age: real)

  /** The arguments of one evaluation of the Beta function. */
  datatype BetaArgs = BetaArgs(x: real, y: real)

  /** The floating-point kernels of scipy, numpy and math, each an uninterpreted total
      function. `divByZero(x)` is the IEEE value of `x / 0.0` (an infinity or NaN), see
      `FDiv`; `signedLogSumExp(u, v)` is `logsumexp([u, v], b=[1, -1])`;
      `partial(f, i, params, t)` is the i-th hand-derived partial derivative used by the
      delta method of family f. */
  datatype Kernels = Kernels(
    beta: (real, real) -> real,
    gamma: real -> real,
    gammaln: real -> real,
    log: real -> real,
    exp: real -> real,
    pow: (real, real) -> real,
    divByZero: real -> real,
    logaddexp: (real, real) -> real,
    signedLogSumExp: (real, real) -> real,
    hyp2f1: (real, real, real, real) -> real,
    sqrt: real -> real,
    ncr: (int, int) -> real,
    gammaRatio: (real, real) -> real,
    std: seq<real> -> real,
    percentile: (seq<Objective>, real) -> Objective,
    partial: (Family, nat, seq<real>, real) -> real,
    bgbbGradient: (seq<real>, seq<DiscreteRow>, Option<seq<int>>) -> seq<real>)

  /** Floating-point division of computed values: the quotient for a nonzero divisor,
      the IEEE infinity or NaN of `divByZero` otherwise (rounding is not modelled). */
  function FDiv(k: Kernels, x: real, y: real): real {
    if y != 0.0 then x / y else k.divByZero(x)
  }

  function BetaOf(k: Kernels, args: BetaArgs): real {
    k.beta(args.x, args.y)
  }

  /** `np.std(values)`: NaN for an empty list. */
  function StdOf(k: Kernels, values: seq<real>): (r: Float)
    ensures r.NaN? <==> |values| == 0
  {
    if |values| == 0 then NaN else Num(k.std(values))
  }

  /** The sum of a sequence of reals. */
  function Sum(s: seq<real>): real {
    if |s| == 0 then 0.0 else Sum(s[..|s| - 1]) + s[|s| - 1]
  }

  /** Sum of f(0) + ... + f(n - 1); zero when n <= 0, as a Python `range(n)` is empty. */
  function SumTo(n: int, f: int -> real): real
    decreases n
  {
    if n <= 0 then 0.0 else SumTo(n - 1, f) + f(n - 1)
  }

  /** The sum of a sequence of integers. */
  function SumInt(s: seq<int>): int {
    if |s| == 0 then 0 else SumInt(s[..|s| - 1]) + s[|s| - 1]
  }

  lemma {:induction false} SumAppend(a: seq<real>, b: seq<real>)
    ensures Sum(a + b) == Sum(a) + Sum(b)
    decreases |b|
  {
    if |b| == 0 {
      assert a + b == a;
    } else {
      assert (a + b)[..|a + b| - 1] == a + b[..|b| - 1];
      SumAppend(a, b[..|b| - 1]);
    }
  }

  lemma {:induction false} SumIntAppend(a: seq<int>, b: seq<int>)
    ensures SumInt(a + b) == SumInt(a) + SumInt(b)
    decreases |b|
  {
    if |b| == 0 {
      assert a + b == a;
    } else {
      assert (a + b)[..|a + b| - 1] == a + b[..|b| - 1];
      SumIntAppend(a, b[..|b| - 1]);
    }
  }

  lemma {:induction false} SumCons(x: real, s: seq<real>)
    ensures Sum([x] + s) == x + Sum(s)
  {
    SumAppend([x], s);
    assert [x][..0] == [];
  }

  lemma {:induction false} SumIntCons(x: int, s: seq<int>)
    ensures SumInt([x] + s) == x + SumInt(s)
  {
    SumIntAppend([x], s);
    assert [x][..0] == [];
  }

  /** `np.log(params).sum()`, the log-penalty applied to every objective. */
  function SumLog(k: Kernels, ps: seq<real>): real {
    Sum(seq(|ps|, i requires 0 <= i < |ps| => k.log(ps[i])))
  }

  /** `npany(asarray(params) <= 0)`. */
  predicate AnyNonPositive(ps: seq<real>) {
    exists i :: 0 <= i < |ps| && ps[i] <= 0.0
  }

  lemma {:induction false} SumToCongruence(n: int, f: int -> real, g: int -> real)
    requires forall i :: 0 <= i < n ==> f(i) == g(i)
    ensures SumTo(n, f) == SumTo(n, g)
    decreases n
  {
    if n > 0 {
      SumToCongruence(n - 1, f, g);
    }
  }

  lemma {:induction false} SumToScale(n: int, c: real, f: int -> real, h: int -> real)
    requires forall i :: 0 <= i < n ==> h(i) == c * f(i)
    ensures SumTo(n, h) == c * SumTo(n, f)
    decreases n
  {
    if n > 0 {
      SumToScale(n - 1, c, f, h);
      assert c * SumTo(n, f) == c * SumTo(n - 1, f) + c * f(n - 1);
    }
  }

  lemma {:induction false} SumToAdd(n: int, f: int -> real, g: int -> real, h: int -> real)
    requires forall i :: 0 <= i < n ==> h(i) == f(i) + g(i)
    ensures SumTo(n, h) == SumTo(n, f) + SumTo(n, g)
    decreases n
  {
    if n > 0 {
      SumToAdd(n - 1, f, g, h);
    }
  }

  /** Adding terms in [0, 1] never lowers a sum and raises it by at most one per term. */
  lemma {:induction false} SumToBoundedGrowth(f: int -> real, m: int, n: int)
    requires 0 <= m <= n
    requires forall i :: m <= i < n ==> 0.0 <= f(i) <= 1.0
    ensures SumTo(m, f) <= SumTo(n, f) <= SumTo(m, f) + ((n - m) as real)
    decreases n - m
  {
    if m < n {
      SumToBoundedGrowth(f, m, n - 1);
      assert SumTo(n, f) == SumTo(n - 1, f) + f(n - 1);
    }
  }

  /** Row i of a double sum: j => F(i, j). */
  function RowOf(F: (int, int) -> real, i: int): int -> real {
    (j: int) => F(i, j)
  }

  /** Column j of a double sum: i => F(i, j). */
  function ColumnOf(F: (int, int) -> real, j: int): int -> real {
    (i: int) => F(i, j)
  }

  /** i => Σ_{j < m} F(i, j). */
  function RowSums(F: (int, int) -> real, m: int): int -> real {
    (i: int) => SumTo(m, RowOf(F, i))
  }

  /** j => Σ_{i < n} F(i, j). */
  function ColumnSums(F: (int, int) -> real, n: int): int -> real {
    (j: int) => SumTo(n, ColumnOf(F, j))
  }

  /** A finite double sum may be taken in either order. */
  lemma {:induction false} SumToExchange(n: int, m: int, F: (int, int) -> real)
    ensures SumTo(n, RowSums(F, m)) == SumTo(m, ColumnSums(F, n))
    decreases n
  {
    if n <= 0 {
      SumToCongruence(m, ColumnSums(F, n), (j: int) => 0.0);
      SumToZero(m);
    } else {
      SumToExchange(n - 1, m, F);
      forall j | 0 <= j < m
        ensures ColumnSums(F, n)(j) == ColumnSums(F, n - 1)(j) + RowOf(F, n - 1)(j)
      {
      }
      SumToAdd(m, ColumnSums(F, n - 1), RowOf(F, n - 1), ColumnSums(F, n));
    }
  }

  lemma {:induction false} SumToZero(n: int)
    ensures SumTo(n, (j: int) => 0.0) == 0.0
    decreases n
  {
    if n > 0 {
      SumToZero(n - 1);
    }
  }
}
