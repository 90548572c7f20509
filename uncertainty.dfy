// The delta-method error propagators `*_error(t, C)` of lifetimes/estimation.py: the
// covariance shape guard, the BG shortcut at t = 0, and `sqrt(dE^T * C * dE)` with the
// gradient dE supplied by the kernels.

module Uncertainty {
  import opened Common
  import opened FittedParams

  /** A covariance matrix as the nested list the caller passes. */
  type Matrix = seq<seq<real>>

  /** `s[i]`, and 0 outside the vector. */
  function At(s: seq<real>, i: int): real {
    if 0 <= i < |s| then s[i] else 0.0
  }

  /** `C[i][j]`, and 0 outside the matrix. */
  function Entry(C: Matrix, i: int, j: int): real {
    if 0 <= i < |C| && 0 <= j < |C[i]| then C[i][j] else 0.0
  }

  /** Every row of C has p entries. */
  predicate Rectangular(C: Matrix, p: int) {
    forall i :: 0 <= i < |C| ==> |C[i]| == p
  }

  /** The shape check: `len(C) != p or len(C[0]) != p` raises the "wrong dimensions"
      ValueError; a ragged list is then rejected when numpy builds the matrix. */
  function CovarianceShape(C: Matrix, p: nat): (r: Outcome<Error>)
    requires p > 0
    ensures r == Fail(WrongDimensions) <==> |C| != p || |C[0]| != p
    ensures r == Pass <==> |C| == p && Rectangular(C, p)
    ensures r.Fail? && r.error != WrongDimensions ==> r.error == RaggedMatrix
  {
    if |C| != p || |C[0]| != p then Fail(WrongDimensions)
    else if !Rectangular(C, p) then Fail(RaggedMatrix)
    else Pass
  }

  /** The terms g_i * C_ij * g_j of the quadratic form. */
  function QuadTerms(g: seq<real>, C: Matrix): (int, int) -> real {
    (i: int, j: int) => At(g, i) * Entry(C, i, j) * At(g, j)
  }

  /** i => g_i * C_ij, the terms of entry j of the row vector dE^T * C. */
  function ColumnTerms(g: seq<real>, C: Matrix, j: int): int -> real {
    (i: int) => At(g, i) * Entry(C, i, j)
  }

  /** Entry j of the row vector dE^T * C. */
  function RowVectorEntry(g: seq<real>, C: Matrix, j: int): real {
    SumTo(|g|, ColumnTerms(g, C, j))
  }

  function NumpyTerms(g: seq<real>, C: Matrix): int -> real {
    (j: int) => RowVectorEntry(g, C, j) * At(g, j)
  }

  /** `float(dE.transpose() * Cov * dE)`, evaluated as numpy does: (dE^T C) dE. */
  function QuadForm(g: seq<real>, C: Matrix): real {
    SumTo(|g|, NumpyTerms(g, C))
  }

  /** j => C_ij * g_j, the terms of entry i of the column vector C * dE. */
  function RowTerms(g: seq<real>, C: Matrix, i: int): int -> real {
    (j: int) => Entry(C, i, j) * At(g, j)
  }

  function ByRowsTerms(g: seq<real>, C: Matrix): int -> real {
    (i: int) => At(g, i) * SumTo(|g|, RowTerms(g, C, i))
  }

  /** The same form evaluated the other way round, dE^T (C dE). */
  function QuadFormByRows(g: seq<real>, C: Matrix): real {
    SumTo(|g|, ByRowsTerms(g, C))
  }

  lemma {:induction false} QuadFormByColumns(g: seq<real>, C: Matrix)
    ensures QuadForm(g, C) == SumTo(|g|, ColumnSums(QuadTerms(g, C), |g|))
  {
    var n := |g|;
    var F := QuadTerms(g, C);
    forall j | 0 <= j < n
      ensures NumpyTerms(g, C)(j) == ColumnSums(F, n)(j)
    {
      forall i | 0 <= i < n
        ensures ColumnOf(F, j)(i) == At(g, j) * ColumnTerms(g, C, j)(i)
      {
        assert At(g, i) * Entry(C, i, j) * At(g, j) == At(g, j) * (At(g, i) * Entry(C, i, j));
      }
      SumToScale(n, At(g, j), ColumnTerms(g, C, j), ColumnOf(F, j));
    }
    SumToCongruence(n, NumpyTerms(g, C), ColumnSums(F, n));
  }

  lemma {:induction false} RowTermsScaled(g: seq<real>, C: Matrix, i: int, j: int)
    ensures RowOf(QuadTerms(g, C), i)(j) == At(g, i) * RowTerms(g, C, i)(j)
  {
    assert At(g, i) * Entry(C, i, j) * At(g, j) == At(g, i) * (Entry(C, i, j) * At(g, j));
  }

  lemma {:induction false} ByRowsTermIsRowSum(g: seq<real>, C: Matrix, i: int)
    ensures ByRowsTerms(g, C)(i) == RowSums(QuadTerms(g, C), |g|)(i)
  {
    forall j | 0 <= j < |g|
      ensures RowOf(QuadTerms(g, C), i)(j) == At(g, i) * RowTerms(g, C, i)(j)
    {
      RowTermsScaled(g, C, i, j);
    }
    SumToScale(|g|, At(g, i), RowTerms(g, C, i), RowOf(QuadTerms(g, C), i));
  }

  lemma {:induction false} QuadFormByRowsIsDoubleSum(g: seq<real>, C: Matrix)
    ensures QuadFormByRows(g, C) == SumTo(|g|, RowSums(QuadTerms(g, C), |g|))
  {
    forall i | 0 <= i < |g|
      ensures ByRowsTerms(g, C)(i) == RowSums(QuadTerms(g, C), |g|)(i)
    {
      ByRowsTermIsRowSum(g, C, i);
    }
    SumToCongruence(|g|, ByRowsTerms(g, C), RowSums(QuadTerms(g, C), |g|));
  }

  /** Either evaluation order gives the double sum Σ_i Σ_j g_i C_ij g_j. */
  lemma {:induction false} QuadFormOrder(g: seq<real>, C: Matrix)
    ensures QuadForm(g, C) == SumTo(|g|, RowSums(QuadTerms(g, C), |g|))
    ensures QuadFormByRows(g, C) == QuadForm(g, C)
  {
    QuadFormByColumns(g, C);
    QuadFormByRowsIsDoubleSum(g, C);
    SumToExchange(|g|, |g|, QuadTerms(g, C));
  }

  /** `C.transpose()` of a square matrix. */
  function Transpose(C: Matrix, p: nat): (r: Matrix)
    requires |C| == p && Rectangular(C, p)
    ensures |r| == p && Rectangular(r, p)
    ensures forall i, j :: 0 <= i < p && 0 <= j < p ==> r[i][j] == C[j][i]
  {
    seq(p, (i: int) requires 0 <= i < p => seq(p, (j: int) requires 0 <= j < p => C[j][i]))
  }

  lemma {:induction false} TransposedTerm(g: seq<real>, C: Matrix, i: int, j: int)
    requires |C| == |g| && Rectangular(C, |g|)
    requires 0 <= i < |g| && 0 <= j < |g|
    ensures RowOf(QuadTerms(g, Transpose(C, |g|)), i)(j) == ColumnOf(QuadTerms(g, C), i)(j)
  {
    assert Entry(Transpose(C, |g|), i, j) == Entry(C, j, i);
    assert At(g, i) * Entry(C, j, i) * At(g, j) == At(g, j) * Entry(C, j, i) * At(g, i);
  }

  /** Row i of the transposed form's terms is column i of the original's. */
  lemma {:induction false} TransposedRowIsColumn(g: seq<real>, C: Matrix, i: int)
    requires |C| == |g| && Rectangular(C, |g|)
    requires 0 <= i < |g|
    ensures RowSums(QuadTerms(g, Transpose(C, |g|)), |g|)(i) == ColumnSums(QuadTerms(g, C), |g|)(i)
  {
    var n := |g|;
    forall j | 0 <= j < n
      ensures RowOf(QuadTerms(g, Transpose(C, n)), i)(j) == ColumnOf(QuadTerms(g, C), i)(j)
    {
      TransposedTerm(g, C, i, j);
    }
    SumToCongruence(n, RowOf(QuadTerms(g, Transpose(C, n)), i), ColumnOf(QuadTerms(g, C), i));
  }

  /** The propagated error depends only on the symmetric part of C: a covariance matrix and
      its transpose give the same quadratic form. */
  lemma {:induction false} QuadFormTranspose(g: seq<real>, C: Matrix)
    requires |C| == |g| && Rectangular(C, |g|)
    ensures QuadForm(g, Transpose(C, |g|)) == QuadForm(g, C)
  {
    var n := |g|;
    var Ct := Transpose(C, n);
    QuadFormOrder(g, Ct);
    QuadFormOrder(g, C);
    var F := QuadTerms(g, C);
    var Ft := QuadTerms(g, Ct);
    SumToExchange(n, n, F);
    forall i | 0 <= i < n
      ensures RowSums(Ft, n)(i) == ColumnSums(F, n)(i)
    {
      TransposedRowIsColumn(g, C, i);
    }
    SumToCongruence(n, RowSums(Ft, n), ColumnSums(F, n));
  }

  /** `math.sqrt(q)`: a ValueError for a negative form. */
  function DeltaMethod(k: Kernels, g: seq<real>, C: Matrix): (r: Result<real, Error>)
    ensures r.Err? <==> QuadForm(g, C) < 0.0
    ensures r.Err? ==> r.error == MathDomain
    ensures r.Ok? ==> r.value == k.sqrt(QuadForm(g, C))
  {
    var q := QuadForm(g, C);
    if q < 0.0 then Err(MathDomain) else Ok(k.sqrt(q))
  }

  /** `dE`: the hand-derived partial derivatives of the expectation at t. */
  function Gradient(k: Kernels, family: Family, params: seq<real>, t: real): (g: seq<real>)
    ensures |g| == |params|
  {
    seq(|params|, (i: int) requires 0 <= i < |params| => k.partial(family, i, params, t))
  }

  /** The steps after the shape guard: the matrix is built (ragged rows fail), then the
      delta method. */
  function Propagate(k: Kernels, family: Family, params: seq<real>, t: real, C: Matrix): (r: Result<real, Error>)
    requires |params| > 0 && |C| == |params| && |C[0]| == |params|
    ensures !Rectangular(C, |params|) ==> r == Err(RaggedMatrix)
    ensures Rectangular(C, |params|) ==> r == DeltaMethod(k, Gradient(k, family, params, t), C)
  {
    if !Rectangular(C, |params|) then Err(RaggedMatrix)
    else DeltaMethod(k, Gradient(k, family, params, t), C)
  }

  /** `ParetoNBDFitter.expected_number_of_purchases_up_to_time_error(t, C)`: the shape of
      C is checked before the parameters are unloaded. */
  function ParetoNbdError(k: Kernels, s: FitState, t: real, C: Matrix): (r: Result<real, Error>)
    ensures |C| != 4 || |C[0]| != 4 ==> r == Err(WrongDimensions)
    ensures |C| == 4 && |C[0]| == 4 && s.Unfitted? ==> r == Err(NotSubscriptable)
    ensures |C| == 4 && |C[0]| == 4 && s.Fitted? && "s" !in s.params ==> r.Err? && r.error.MissingKey?
    ensures |C| == 4 && |C[0]| == 4 && s.Fitted? && Lookup(s.params, ["r", "alpha", "s", "beta"]).Ok? ==>
              r == Propagate(k, ParetoNbd, Lookup(s.params, ["r", "alpha", "s", "beta"]).value, t, C)
    ensures r.Ok? ==> |C| == 4 && Rectangular(C, 4) && s.Fitted?
  {
    if |C| != 4 || |C[0]| != 4 then Err(WrongDimensions)
    else match UnloadParamsAsWritten(s, ["r", "alpha", "s", "beta"])
      case Err(e) => Err(e)
      case Ok(params) =>
        assert ["r", "alpha", "s", "beta"][2] == "s";
        Propagate(k, ParetoNbd, params, t, C)
  }

  /** `BGBBFitter.static_expected_number_of_purchases_up_to_time_error(a, b, g, d, t, C)`. */
  function BgbbStaticError(k: Kernels, params: seq<real>, t: real, C: Matrix): (r: Result<real, Error>)
    requires |params| == 4
    ensures |C| != 4 || |C[0]| != 4 ==> r == Err(WrongDimensions)
    ensures CovarianceShape(C, 4) == Pass ==> r == DeltaMethod(k, Gradient(k, Bgbb, params, t), C)
    ensures r.Ok? ==> CovarianceShape(C, 4) == Pass && QuadForm(Gradient(k, Bgbb, params, t), C) >= 0.0
  {
    if |C| != 4 || |C[0]| != 4 then Err(WrongDimensions)
    else Propagate(k, Bgbb, params, t, C)
  }

  /** The BG/BB instance method, and the session error of the BG/BB/BG extension, which
      unload (alpha, beta, gamma, delta) first and then call the static propagator. */
  function BgbbError(k: Kernels, s: FitState, t: real, C: Matrix): (r: Result<real, Error>)
    ensures s.Unfitted? ==> r == Err(NotSubscriptable)
    ensures s.Fitted? && "gamma" !in s.params ==> r.Err? && r.error.MissingKey?
    ensures s.Fitted? && Lookup(s.params, ["alpha", "beta", "gamma", "delta"]).Ok? ==>
              r == BgbbStaticError(k, Lookup(s.params, ["alpha", "beta", "gamma", "delta"]).value, t, C)
  {
    match UnloadParamsAsWritten(s, ["alpha", "beta", "gamma", "delta"])
    case Err(e) => Err(e)
    case Ok(params) =>
      assert ["alpha", "beta", "gamma", "delta"][2] == "gamma";
      BgbbStaticError(k, params, t, C)
  }

  /** `BGFitter.static_expected_number_of_purchases_up_to_time_error(a, b, t, C)`: 0 at
      t = 0 before anything about C is looked at, then a 2 x 2 shape guard. */
  function BgStaticError(k: Kernels, a: real, b: real, t: real, C: Matrix): (r: Result<real, Error>)
    ensures t == 0.0 ==> r == Ok(0.0)
    ensures t != 0.0 && (|C| != 2 || |C[0]| != 2) ==> r == Err(WrongDimensions)
    ensures t != 0.0 && CovarianceShape(C, 2) == Pass ==> r == DeltaMethod(k, Gradient(k, Bg, [a, b], t), C)
  {
    if t == 0.0 then Ok(0.0)
    else if |C| != 2 || |C[0]| != 2 then Err(WrongDimensions)
    else Propagate(k, Bg, [a, b], t, C)
  }

  /** The BG instance method: the parameters are unloaded first. */
  function BgError(k: Kernels, s: FitState, t: real, C: Matrix): (r: Result<real, Error>)
    ensures s.Unfitted? ==> r == Err(NotSubscriptable)
    ensures s.Fitted? && "beta" !in s.params ==> r.Err? && r.error.MissingKey?
    ensures s.Fitted? && Lookup(s.params, ["alpha", "beta"]).Ok? ==>
              r == BgStaticError(k, Lookup(s.params, ["alpha", "beta"]).value[0], Lookup(s.params, ["alpha", "beta"]).value[1], t, C)
  {
    match UnloadParamsAsWritten(s, ["alpha", "beta"])
    case Err(e) => Err(e)
    case Ok(params) =>
      assert ["alpha", "beta"][1] == "beta";
      BgStaticError(k, params[0], params[1], t, C)
  }

  /** At t = 0 a fitted BG model reports no uncertainty whatever matrix is passed, even one
      of the wrong shape. */
  lemma {:induction false} BgErrorAtZero(k: Kernels, a: real, b: real, C: Matrix)
    ensures BgError(k, Fitted(map["alpha" := a, "beta" := b]), 0.0, C) == Ok(0.0)
  {
    var m := map["alpha" := a, "beta" := b];
    assert "alpha"[0] != "beta"[0];
    assert "alpha" in m && "beta" in m && m["alpha"] == a && m["beta"] == b;
    var r := Lookup(m, ["alpha", "beta"]);
    assert r.Ok?;
    assert r.value == [a, b];
  }
}
