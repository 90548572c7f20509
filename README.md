# lifetimes: the decision and bookkeeping layer, in Dafny

`lifetimes` fits probabilistic customer-base models (Pareto/NBD, BG/NBD, MBG/NBD,
Gamma-Gamma, the discrete-time BG/BB, BG/BB/BG and its extension with a
never-converting mass `c0`, and the contractual BG model). It predicts purchases,
conversions and the probability that a customer is still alive. `lifetimes/validation.py`
checks a BG fit by simulation.

Numerically the library is built from special functions: log-gamma, Beta,
hypergeometric, digamma, log-sum-exp and the optimiser `_fit`. This model keeps every
one of them uninterpreted. They are fields of the record `Common.Kernels`, so each is
an arbitrary total function of reals. What the model does verify is the discrete layer
around those functions:

- the feasibility guards of every `_negative_log_likelihood`, which return +inf
  (`Objective.Inf`);
- the weighting of per-row log-likelihoods by the compressed-row counts `N`, and the
  row count `Ntot` of the BG likelihood;
- the finite sum of the BG/BB likelihood, and the loop that adds each row's sum to
  `numerator[j]`;
- the Beta-term choice of the BG likelihood and of its pmf `P(N(t) = n)`, and the
  shortcuts of the BG expectation;
- the parameter ordering inside Pareto/NBD `_log_A_0`;
- the input checks and the stored state of `BGFitter.fit`;
- `_unload_params` and the fitted/unfitted state;
- the covariance shape checks and the quadratic form `dEᵗ·C·dE` of the error propagators;
- the nested loops that fill the P(alive) matrix;
- the regularised and cumulative conversion probabilities of BG/BB/BG and its extension;
- the `*_error(t, params_list)` methods, which overwrite `params_` per entry and
  restore it;
- the expansion of compressed `(T, N)` rows into an age list;
- in the validator: the unit-by-unit train/test split, the replicate loop of
  `generate_neg_likelihoods`, and the strict accept rule of `goodness_of_test`.

Modules:

- `Common` (common.dfy) holds the shared vocabulary: results, objectives, errors, the
  kernels, and finite sums.
- `AgeExpansion` (expansion.dfy) is the `reduce` expansion of `(T, N)`.
- `FittedParams` (fit_state.dfy) is `params_` and `_unload_params`.
- `Likelihood` (likelihood.dfy) holds the likelihood evaluators.
- `Derived` (derived.dfy) is the BG pmf and expectation, the conversion probabilities
  and the P(alive) matrix.
- `Uncertainty` (uncertainty.dfy) holds the delta-method propagators.
- `Fitters` (fitters.dfy) is the class `BgFitter` (`BGFitter.fit`) and the class
  `ConversionFitter`, which carries the `params_list` error methods of `BGBBBGFitter` and
  `BGBBBGExtFitter`.
- `Validation` (validation.dfy) is `lifetimes/validation.py`.

The code is imperative in four places: the BG/BB numerator loop, the P(alive) fill, the
error methods and the validator's loops. Those are Dafny methods with loops, each proved
against a specification function. `BGFitter.fit` and the error methods change the
fitter's attributes, so they are methods of classes with `modifies` clauses. The rest is
functions and lemmas.

Inputs the library gets from outside are parameters of the model:

- the random draws of `np.random.uniform`, as a function `draws: nat -> real`;
- the data generator `generate_new_data`, as `sample`;
- the optimiser `_fit`, as `optimise`;
- `np.percentile` and `np.std`, as fields of `Kernels`.

## Model

| member | source | states |
|---|---|---|
| FittedParams.Lookup | lifetimes/estimation.py:37 | Looking up names in a fitted `params_` succeeds exactly when every name is a key. The values then come in the order of the names. Otherwise the result is the KeyError of a missing name. |
| FittedParams.UnloadParamsAsWritten | lifetimes/estimation.py:22-37 | As written, an unfitted model fails with "None is not subscriptable" as soon as one name is asked for, and returns `[]` for no names. A fitted model returns the lookup. |
| FittedParams.UnloadParams | lifetimes/estimation.py:34-37 | With the intended guard, an unfitted model reports "not fit yet". A fitted model agrees with the as-written version. |
| FittedParams.NotFittedGuardUnreachable | lifetimes/estimation.py:22-36 | The written guard never yields the "not fit yet" error, while the corrected guard always does on an unfitted model. |
| FittedParams.NotFittedEmptyUnload | lifetimes/estimation.py:22-37 | An unfitted model asked for no names returns an empty list instead of failing. |
| FittedParams.ZipParams | lifetimes/estimation.py:1351 | The keys of `OrderedDict(zip(names, values))` are exactly the names. |
| FittedParams.ZipParamsAt | lifetimes/estimation.py:1351 | For distinct names, each name maps to the value at its own position. |
| FittedParams.UnloadAfterFit | lifetimes/estimation.py:34-37 | Unloading the names a fit stored returns the fitted values, in order. |
| AgeExpansion.Repeat | lifetimes/estimation.py:1341 | `[t] * n` has max(n, 0) entries, all equal to t. |
| AgeExpansion.ReduceIsExpand | lifetimes/estimation.py:1341 | The left fold `reduce(lambda res, el: res + el, blocks, acc)` is `acc` followed by the blocks in row order. |
| AgeExpansion.ExpandLength | lifetimes/validation.py:68-69 | The expanded age list has Σ max(N_i, 0) entries. |
| AgeExpansion.ExpandAt | lifetimes/validation.py:68-69 | Unit u of row i sits right after the units of the earlier rows: each T_i occurs N_i times consecutively, in row order. |
| AgeExpansion.GenTLayout | lifetimes/estimation.py:805 | The fold the fitters evaluate for `gen_t` has total length Σ N and places T_i at the positions of row i. |
| AgeExpansion.ExpandOnes | lifetimes/estimation.py:1341-1343 | With all counts 1 the expansion is the age column itself, the same as the uncompressed `gen_t = T`. |
| AgeExpansion.MapExpand | lifetimes/validation.py:68-69 | A per-row function commutes with expanding the rows. |
| AgeExpansion.Map | lifetimes/estimation.py:716 | The elementwise image has the same length, and each entry is the function applied to the matching input entry. |
| AgeExpansion.Ones | lifetimes/estimation.py:719-722 | The weights of an uncompressed data set are n ones. |
| Common.StdOf | lifetimes/estimation.py:1035 | `np.std` of a list is NaN exactly for the empty list. |
| Common.SumAppend | lifetimes/estimation.py:720 | A sum over a concatenation is the sum of the two sums. |
| Common.SumIntAppend | lifetimes/estimation.py:1283 | The same for integer sums. |
| Common.SumCons | lifetimes/estimation.py:720 | A sum splits off its first entry. |
| Common.SumIntCons | lifetimes/estimation.py:1283 | The same for integer sums. |
| Common.SumToCongruence | lifetimes/estimation.py:1040 | Sums over `range(n)` of pointwise-equal terms are equal. |
| Common.SumToScale | lifetimes/estimation.py:1176 | A constant factor of every term comes out of a sum over `range(n)`. |
| Common.SumToAdd | lifetimes/estimation.py:1176 | A sum over `range(n)` of term-wise sums is the sum of the two sums. |
| Common.SumToExchange | lifetimes/estimation.py:1422 | A finite double sum may be taken in either order. |
| Common.SumToZero | lifetimes/estimation.py:1040 | A sum of zeros is zero. |
| Likelihood.Products | lifetimes/estimation.py:720 | `llj * N` has one entry per row, the j-th being ll_j · N_j. |
| Likelihood.SumRepeat | lifetimes/estimation.py:720 | Summing n copies of a value is weighting it by max(n, 0). |
| Likelihood.ProductsCons | lifetimes/estimation.py:720 | The weighted sum splits off its first row. |
| Likelihood.SumProductsIsSumExpand | lifetimes/estimation.py:719-722 | With non-negative weights Σ_j N_j·ll_j is the plain sum over the expanded rows. |
| Likelihood.WeightedIsExpanded | lifetimes/estimation.py:719-722 | The weighted objective `−Σ N_j·ll_j` of compressed rows is the unweighted objective of the rows they stand for. |
| Likelihood.AllOnesWeights | lifetimes/estimation.py:719-722 | Absent weights give the same objective as all-ones weights. |
| Likelihood.WeightedMapIsExpanded | lifetimes/estimation.py:719-722 | For any per-row log-likelihood, weighting equals expanding, and all-ones weights equal no weights. |
| Likelihood.UnitsIsSumInt | lifetimes/estimation.py:1283 | With non-negative counts, the number of expanded units is `np.array(N).sum()`. |
| Likelihood.SelectHyp | lifetimes/estimation.py:184 | `_log_A_0` pairs (min, max) of alpha and beta, in order, with the second hypergeometric parameter r + x when alpha < beta and s + 1 otherwise. |
| Likelihood.HypArgumentInUnitInterval | lifetimes/estimation.py:184-191 | For positive alpha and beta and a non-negative recency or age, both hypergeometric arguments (max − min)/(max + z) lie in [0, 1). |
| Likelihood.LogA0AtEndOfObservation | lifetimes/estimation.py:180-199 | When t_x = T, the two arguments of `_log_A_0`'s signed log-sum-exp coincide, so A_0 is the log of the difference of two equal terms. |
| Likelihood.ParetoNbdNegLogLik | lifetimes/estimation.py:203-219 | The Pareto/NBD objective is +inf exactly when some parameter is ≤ 0. |
| Likelihood.BgNbdNegLogLik | lifetimes/estimation.py:400-414 | The BG/NBD objective is +inf exactly when some parameter is ≤ 0. |
| Likelihood.MbgNbdNegLogLik | lifetimes/estimation.py:559-572 | The MBG/NBD objective is +inf exactly when some parameter is ≤ 0. |
| Likelihood.GammaGammaNegLogLikAsWritten | lifetimes/estimation.py:51-68 | As written, the Gamma-Gamma objective is +inf exactly when some parameter is strictly negative. |
| Likelihood.GammaGammaNegLogLik | lifetimes/estimation.py:51-68 | With the guard of the other evaluators, it is +inf exactly when some parameter is ≤ 0, and equals the as-written value whenever it is finite. |
| Likelihood.GammaGammaZeroParameterAccepted | lifetimes/estimation.py:52-60 | A zero shape parameter passes the written guard, where the corrected guard returns +inf. |
| Likelihood.PyRange | lifetimes/estimation.py:700-712 | `range(n)` lists 0 .. n−1, and nothing when n ≤ 0. |
| Likelihood.BgbbSumRange | lifetimes/estimation.py:700-712 | A row's finite sum has exactly T − t_x terms, with indices 0 .. T − t_x − 1, and none when t_x ≥ T. |
| Likelihood.BgbbNumeratorShortHistories | lifetimes/estimation.py:695-713 | A row with t_x ≥ T has only the alive-at-T term in its numerator. A row with t_x = T − 1 adds exactly one term, for churning right after t_x. |
| Likelihood.BgbbNumeratorVector | lifetimes/estimation.py:706-713 | The vector path leaves in `numerator[j]` exactly row j's base term plus row j's finite sum, for every row. |
| Likelihood.AddRowSums | lifetimes/estimation.py:710-713 | The loop `numerator[j] += np.sum(...)` adds to each entry the sum of its own row and nothing else. |
| Likelihood.BgbbNegLogLik | lifetimes/estimation.py:667-778 | The BG/BB objective is +inf exactly when some parameter is ≤ 0. A gradient is returned exactly when `jac` is set. Infeasible parameters with `jac` give the zero gradient. |
| Likelihood.BgbbGradientModeOmitsPenalty | lifetimes/estimation.py:717-778 | On feasible parameters the two modes differ by exactly `penalizer · Σ log(params)`: the `jac` objective has no penalizer term. |
| Likelihood.BgbbCompressedIsExpanded | lifetimes/estimation.py:719-722 | Weighted BG/BB rows give the objective of the expanded rows. |
| Likelihood.BgbbOnesIsUnweighted | lifetimes/estimation.py:719-722 | All-ones BG/BB weights give the unweighted objective. |
| Likelihood.Histories | lifetimes/estimation.py:965-966 | The (x, t_x, T) rows handed to the BG/BB part, one per session row. |
| Likelihood.BgbbbgNegLogLik | lifetimes/estimation.py:939-966 | The BG/BB/BG objective is +inf exactly when one of its six parameters is ≤ 0. |
| Likelihood.BgbbbgExtNegLogLik | lifetimes/estimation.py:1071-1102 | The extension's objective is +inf exactly when one of its seven parameters is ≤ 0 or c0 ≥ 1. |
| Likelihood.Mask | lifetimes/estimation.py:955-956 | `mask = x >= xc` is 1 exactly when x ≥ xc, and 0 otherwise. |
| Likelihood.BgNumeratorArgs | lifetimes/estimation.py:1294-1298 | The vector path adds one to a exactly when x < T, and adds x to b for every customer. |
| Likelihood.BgLikelihoodBranch | lifetimes/estimation.py:1285-1298 | The scalar path has a numerator exactly when x ≤ T, and then agrees with the vector path. |
| Likelihood.BgNegLogLik | lifetimes/estimation.py:1268-1309 | The BG objective (vector path) is +inf exactly when alpha or beta is ≤ 0. |
| Likelihood.BgScalarNegLogLik | lifetimes/estimation.py:1272-1309 | For a single history, with or without a weight N, the objective is +inf exactly when alpha ≤ 0, beta ≤ 0 or x > T. The +inf for x > T is `np.log(0)` of the zero numerator. |
| Likelihood.BgScalarIsOneRow | lifetimes/estimation.py:1278-1305 | On a history with x ≤ T, the scalar path equals the vector path on one row, the scalar weight N being that row's weight (`Ntot = np.array(N).sum()`). |
| Likelihood.BgScalarWeightScales | lifetimes/estimation.py:1281-1309 | A weight N = n multiplies both the log-likelihood and the `Ntot · log B(a, b)` term by n: the objective less its penalty is n times the unweighted one. |
| Likelihood.BgRowCountOnes | lifetimes/estimation.py:1278-1283 | `Ntot` with all-ones weights is the number of rows. |
| Likelihood.BgWeightedPartsAreExpanded | lifetimes/estimation.py:1278-1307 | Both the weighted sum and `Ntot = Σ N` of compressed BG rows are those of the expanded rows, and all-ones weights equal no weights. |
| Likelihood.BgCompressedIsExpanded | lifetimes/estimation.py:1278-1309 | The whole BG objective, `Ntot · log B(a, b)` included, is the same on compressed rows and on the rows they stand for. All-ones weights give the unweighted objective. |
| Derived.BgPmfArgsAsWritten | lifetimes/estimation.py:1442-1449 | As written, t < n raises. Otherwise n = 0 selects B(a+1, b) (even when t = 0), 0 < n < t selects B(a+1, b+n), and 0 < n = t selects B(a, b+n). |
| Derived.BgPmfArgs | lifetimes/estimation.py:1442-1449 | Corrected: t < n raises, and otherwise the term is the one the likelihood uses for n renewals in t periods. |
| Derived.BgPmfBranchesAgreeAwayFromZero | lifetimes/estimation.py:1444-1449 | The written and the corrected case splits agree on every (t, n) except t = n = 0. |
| Derived.BgPmfWith | lifetimes/estimation.py:1437-1451 | Non-integer t or n raises the TypeError, and integer t < n raises the ValueError. |
| Derived.BgPmfAsWritten | lifetimes/estimation.py:1437-1451 | The written pmf raises in the same cases as the corrected one. |
| Derived.BgPmf | lifetimes/estimation.py:1437-1451 | The corrected pmf is the likelihood's numerator divided by B(a, b). |
| Derived.BgPmfAtZeroHorizon | lifetimes/estimation.py:1444-1451 | Over zero periods the corrected pmf gives P(N(0) = 0) = 1, where the written one gives B(a+1, b)/B(a, b). |
| Derived.BgExpected | lifetimes/estimation.py:1372-1380 | The BG expectation is 0 at t = 0 and the general closed form otherwise. |
| Derived.BgExpectedOneShortcut | lifetimes/estimation.py:1375-1380 | The t = 1 shortcut B(a, b+1)/B(a, b) is the general form at 1. |
| Derived.BgExpectedZeroShortcut | lifetimes/estimation.py:1373-1380 | The t = 0 shortcut is the general form at 0 whenever the Beta recurrence holds. |
| Derived.ExtConvertingAt | lifetimes/estimation.py:1170-1178 | The extension's raw conversion probability is c0 at t = 0. |
| Derived.ExtRegularizedAt | lifetimes/estimation.py:1159-1167 | For t ≤ 1 it is the raw value. For t > 1 it is 0 exactly when the raw value is < 0, > the value at t−1, < 1e-6 or > 1, and the raw value otherwise. |
| Derived.ExtRegularizedBounds | lifetimes/estimation.py:1162-1167 | Every regularised value after the first period lies in [0, 1], and is 0 or at least 1e-6 and at most the raw value one period earlier. |
| Derived.ExtConvertingWithin | lifetimes/estimation.py:1198-1201 | The within-time probability is 0 before period 0 and c0 at t = 0. |
| Derived.ExtWithinFromFirstPeriod | lifetimes/estimation.py:1159-1201 | From t = 1 on, it is at least c0 + P(convert at 1), and at most that plus 1 per further period. |
| Derived.ExtWithinMonotone | lifetimes/estimation.py:1198-1201 | From one period on, the cumulative probability summed over `range(t+1)` never decreases, and it grows by at most 1 per period. |
| Derived.RegularizedSumMonotone | lifetimes/estimation.py:1162-1201 | For any raw per-period values, the regularised values summed over `range(t+1)` never decrease from one period on, and each period adds at most 1. |
| Derived.BgbbbgConvertingAt | lifetimes/estimation.py:1015-1025 | The BG/BB/BG conversion probability is B(e+1, z)/B(e, z) at t = 0. |
| Derived.BgbbbgConvertingWithin | lifetimes/estimation.py:1039-1040 | The BG/BB/BG within-time probability is 0 before period 0 and B(e+1, z)/B(e, z) at t = 0. |
| Derived.BgbbbgWithinStep | lifetimes/estimation.py:1039-1040 | The within-time value at t is the value at t−1 plus the value at t. |
| Derived.ColumnMax | lifetimes/estimation.py:251-252 | A column's maximum is absent exactly for the empty column, and is otherwise an entry that no entry exceeds. |
| Derived.Truncate | lifetimes/estimation.py:251-252 | `int(x)` truncates toward zero: the result has the sign of x and lies within 1 of x, on the side of zero. |
| Derived.BoundOrMax | lifetimes/estimation.py:251-252 | `bound or int(self.data[column].max())`: a nonzero bound is used as given. A None or 0 bound indexes `data`, which fails with a TypeError while `data` is the class default None; otherwise it falls back to the truncated maximum, and an empty column fails. |
| Derived.FillAliveMatrix | lifetimes/estimation.py:254-257 | The nested loops produce a rows × cols array with Z[i, j] = P_alive(frequency j, recency i, age). |
| Derived.ProbabilityAliveMatrix | lifetimes/estimation.py:239-259 | Errors come in source order: the frequency bound, the recency bound, numpy's negative-dimension error for a bound below −1, then the first `conditional_probability_alive` call, whose `_unload_params` fails on an unfitted model. A matrix without cells needs no unload. Otherwise the matrix is (max_recency+1) × (max_frequency+1) with Z[i, j] = P_alive(j, i, max_recency) over the unloaded parameters. |
| Uncertainty.CovarianceShape | lifetimes/estimation.py:316-317 | "wrong dimensions" exactly when len(C) ≠ p or len(C[0]) ≠ p. The check passes exactly for a p × p matrix. A ragged matrix fails later, in `np.matrix`. |
| Uncertainty.QuadFormByColumns | lifetimes/estimation.py:1419-1422 | Numpy's (dEᵗC)dE is the double sum taken column by column. |
| Uncertainty.RowTermsScaled | lifetimes/estimation.py:1419-1422 | Each term g_i·C_ij·g_j factors as g_i times (C_ij·g_j). |
| Uncertainty.ByRowsTermIsRowSum | lifetimes/estimation.py:1419-1422 | Entry i of dEᵗ(C dE) is row i of the double sum. |
| Uncertainty.QuadFormByRowsIsDoubleSum | lifetimes/estimation.py:1419-1422 | dEᵗ(C dE) is the double sum taken row by row. |
| Uncertainty.QuadFormOrder | lifetimes/estimation.py:328-331 | Both groupings of `dE.transpose() * Cov * dE` give Σ_i Σ_j g_i C_ij g_j. |
| Uncertainty.Transpose | lifetimes/estimation.py:1419 | The transpose of a square matrix is square with r[i][j] = C[j][i]. |
| Uncertainty.QuadFormTranspose | lifetimes/estimation.py:1419-1422 | A covariance matrix and its transpose give the same propagated error. |
| Uncertainty.DeltaMethod | lifetimes/estimation.py:331 | `math.sqrt` of the form raises exactly when the form is negative, and otherwise is its root. |
| Uncertainty.Gradient | lifetimes/estimation.py:329 | dE has one entry per parameter. |
| Uncertainty.Propagate | lifetimes/estimation.py:328-331 | Once the shape check passes, a ragged C fails. Otherwise the result is the delta method on C. |
| Uncertainty.ParetoNbdError | lifetimes/estimation.py:305-331 | Pareto/NBD: the shape is checked before the parameters are unloaded. A 4 × 4 matrix on an unfitted model then fails with the TypeError of indexing `params_ = None`; a fitted model without `s` fails with a KeyError. When all four names are present, the result is the delta method `sqrt(dEᵗ·C·dE)` of `Propagate` on the unloaded values. A result exists only for a 4 × 4 matrix on a fitted model. |
| Uncertainty.BgbbStaticError | lifetimes/estimation.py:866-885 | BG/BB: a non-4 × 4 matrix raises, and a 4 × 4 one gives the delta method. A result implies a non-negative form. |
| Uncertainty.BgbbError | lifetimes/estimation.py:851-863 | The instance methods unload (alpha, beta, gamma, delta) first, so an unfitted model fails with the TypeError of indexing `params_ = None` before C is examined, and a fitted model without `gamma` fails with a KeyError. With all four names present the result is `BgbbStaticError` of the unloaded values. |
| Uncertainty.BgStaticError | lifetimes/estimation.py:1397-1422 | BG: 0 at t = 0 before C is looked at. Otherwise a non-2 × 2 matrix raises, and a 2 × 2 one gives the delta method. |
| Uncertainty.BgError | lifetimes/estimation.py:1382-1394 | The BG instance method fails on an unfitted model with the TypeError of indexing `params_ = None`, and on a fitted model without `beta` with a KeyError. With both names present the result is `BgStaticError` of the unloaded alpha and beta. |
| Uncertainty.BgErrorAtZero | lifetimes/estimation.py:1393-1400 | At t = 0 a fitted BG model reports 0 for any matrix, even one of the wrong shape. |
| Fitters.Rows | lifetimes/estimation.py:1352 | `data` holds one (frequency, T) row per customer, in order. |
| Fitters.BgFitChecks | lifetimes/estimation.py:1331-1337 | The checks run in source order: frequency > T, then frequency < 0, then T < 0. An input passes exactly when every row has 0 ≤ frequency ≤ T and T ≥ 0. |
| Fitters.NegativeAgeCheckUnreachable | lifetimes/estimation.py:1331-1337 | The third check never fires, because the first two already imply T ≥ 0. |
| Fitters.GenT | lifetimes/estimation.py:1339-1343 | `gen_t` is T without counts and the expansion of (T, N) with counts. |
| Fitters.BgNamesDistinct | lifetimes/estimation.py:1351 | The stored names are distinct. |
| Fitters.BgFitter.constructor | lifetimes/estimation.py:1264-1265 | A new fitter carries its penalizer and nothing fitted. |
| Fitters.BgFitter.Fit | lifetimes/estimation.py:1311-1356 | A failed check raises before the optimiser is reached and assigns nothing. On success the optimiser is called once, and `params_`, `data`, `_negative_log_likelihood_` and `gen_t` hold its result. Unloading (alpha, beta) gives the optimiser's values. |
| Fitters.ParamNames | lifetimes/estimation.py:1031-1032 | The error methods write six names, or seven with c0 for the extension. |
| Fitters.ParamNamesDistinct | lifetimes/estimation.py:1031-1032 | Those names are distinct. |
| Fitters.EntryValuePrefix | lifetimes/estimation.py:1031-1033 | Only the first six (seven) numbers of an entry reach `params_`, and the computed value depends on nothing else. |
| Fitters.LongBeforeStep | lifetimes/estimation.py:1030-1031 | Scanning extends the run of entries long enough to fill the dictionary. |
| Fitters.FirstShort | lifetimes/estimation.py:1031 | The entry whose short length raises the IndexError is the first short one. |
| Fitters.FirstShortAt | lifetimes/estimation.py:1031 | A scan that finds a short entry after only long ones has found the first short entry. |
| Fitters.ConversionValues | lifetimes/estimation.py:1029-1034 | One value per entry of `params_list`. |
| Fitters.ConversionValuesOf | lifetimes/estimation.py:1029-1034 | A list that holds, entry by entry, the value computed for each entry is the list of collected values. |
| Fitters.ClampSpread | lifetimes/estimation.py:1190-1214 | The extension replaces a NaN or larger-than-one spread by 1 and leaves the others alone. BG/BB/BG keeps the spread unchanged. |
| Fitters.ConversionError | lifetimes/estimation.py:1027-1052 | On a fitted model the error methods raise exactly when some entry is too short. Otherwise they give the (clamped) `np.std` of the values. |
| Fitters.ConversionErrorRange | lifetimes/estimation.py:1035 | The extension's error is always a number ≤ 1, and 1 for an empty list. BG/BB/BG gives NaN for an empty list. |
| Fitters.ConversionFitter.WriteEntry | lifetimes/estimation.py:1031-1033 | One pass of the loop stores the entry's dictionary in `params_`. It returns the value computed from what `_unload_params` reads back. |
| Fitters.ConversionFitter.WrittenState | lifetimes/estimation.py:1029-1033 | Before the first pass `params_` is untouched. After it, `params_` holds a fitted dictionary. |
| Fitters.ConversionFitter.WrittenStateReadsBack | lifetimes/estimation.py:1031-1033 | After m > 0 passes, `_unload_params` reads back the leading values of entry m − 1. |
| Fitters.ConversionFitter.CollectValues | lifetimes/estimation.py:1029-1034 | The loop collects exactly the specified values when every entry is long enough. Otherwise it stops with `params_` holding the last entry before the first short one. |
| Fitters.ConversionFitter.ConversionErrorOf | lifetimes/estimation.py:1027-1052 | An unfitted model fails on `None.copy()` and is left unchanged. A fitted model gives `ConversionError`. Every successful call restores `params_`. A raising call leaves `params_` overwritten. |
| Validation.CountBelow | lifetimes/validation.py:90-94 | The number of a row's units sent to the test set never exceeds its unit count. |
| Validation.RowTestCount | lifetimes/validation.py:88-94 | Row i's test units are at most max(N_i, 0). |
| Validation.RowTrainCount | lifetimes/validation.py:88-94 | Row i's train and test units add up to max(N_i, 0). |
| Validation.TestCounts | lifetimes/validation.py:85-94 | `test_N` has one count per row: the units whose draw is below the ratio. |
| Validation.TrainCounts | lifetimes/validation.py:86-94 | `train_N` has one count per row: the remaining units. |
| Validation.SplitConservesUnits | lifetimes/validation.py:87-94 | For every row both counts are ≥ 0 and add up to N_i. A negative N_i, whose `range` is empty, gives 0 and 0. |
| Validation.Reweight | lifetimes/validation.py:95-99 | The copy keeps every other column and replaces the weights. |
| Validation.KeepPositive | lifetimes/validation.py:97-100 | The filtered frame is no longer than the input and holds only rows of positive weight. |
| Validation.KeepPositiveMembers | lifetimes/validation.py:97-100 | A row is kept exactly when it is an input row of positive weight. |
| Validation.KeepPositiveNone | lifetimes/validation.py:97-100 | Rows that all have weight ≤ 0 are all dropped. |
| Validation.KeepPositiveAppend | lifetimes/validation.py:97-100 | Filtering distributes over concatenation, so the kept rows stay in their original order. |
| Validation.KeepPositiveAll | lifetimes/validation.py:97-100 | Rows that all have positive weight are kept unchanged. |
| Validation.KeepPositiveOfPos | lifetimes/validation.py:95-100 | Clamping non-positive weights to zero does not change which rows are kept. |
| Validation.CountBelowNone | lifetimes/validation.py:91 | With draws ≥ 0 and a ratio ≤ 0, no unit goes to the test set. |
| Validation.CountBelowAll | lifetimes/validation.py:91 | With draws < 1 and a ratio ≥ 1, every unit goes to the test set. |
| Validation.SplitAllToTrain | lifetimes/validation.py:84-101 | With draws in [0, 1) and a ratio ≤ 0, the test frame is empty and the train frame is the input's positive-weight rows. |
| Validation.SplitAllToTest | lifetimes/validation.py:84-101 | With draws in [0, 1) and a ratio ≥ 1, the train frame is empty and the test frame is the input's positive-weight rows. |
| Validation.SplitUnits | lifetimes/validation.py:90-94 | The inner loop counts the units whose draw is below the ratio as test units, and the rest as train units. |
| Validation.SplitDataset | lifetimes/validation.py:84-101 | The result is exactly (train, test): the rows reweighted by the train and the test counts, each keeping only positive weights. |
| Validation.FrequencyColumn | lifetimes/validation.py:33 | The `frequency` column of generated rows. |
| Validation.AgeColumn | lifetimes/validation.py:33 | The `T` column of generated rows. |
| Validation.CountColumn | lifetimes/validation.py:33 | The `N` column of generated rows. |
| Validation.ReplicateAges | lifetimes/validation.py:27-30 | A truthy `test_ts` is used. None or an empty list falls back to the fitter's own ages. |
| Validation.Replicate | lifetimes/validation.py:28-39 | A fixed-parameter replicate never fails: only a refit can raise, through the fit's input checks. |
| Validation.FirstErrorOrAllMeaning | lifetimes/validation.py:26-41 | A loop that stops at its first error either holds every outcome's value in iteration order, or carries the error of the first failing outcome, all earlier outcomes having succeeded. |
| Validation.FirstErrorPersists | lifetimes/validation.py:26-41 | Once an outcome fails, further iterations leave the result unchanged. |
| Validation.Replicates | lifetimes/validation.py:23-41 | n successful replicates give exactly n values, in iteration order, each the i-th replicate. The loop fails exactly when some replicate fails, and then with the error of a failing replicate. |
| Validation.ReplicatesKeepFirstError | lifetimes/validation.py:26-39 | Once a replicate fails, the loop reports that error however many iterations remain. |
| Validation.FixedParameterReplicatesSucceed | lifetimes/validation.py:35-39 | Without refitting, all replicates succeed. |
| Validation.RunReplicate | lifetimes/validation.py:27-39 | One pass draws a batch, then either fits a fresh fitter with the given penalizer and takes its objective, or evaluates the fixed parameters on the batch. |
| Validation.GenerateNegLikelihoods | lifetimes/validation.py:13-41 | For simulation_size ≤ 0 the result is empty. An unfitted fitter fails once the loop runs. Otherwise the result is exactly the replicate sequence for the fitted (alpha, beta) and the chosen ages. |
| Validation.RunReplicates | lifetimes/validation.py:26-41 | The loop returns exactly the first n replicates in order, or the error of the first that fails. |
| Validation.BelowStrictOrder | lifetimes/validation.py:79 | `<` on objectives, with +inf above every number, is a strict order. |
| Validation.Accepts | lifetimes/validation.py:73-81 | An accepted observed value is finite, and the lower percentile bound then lies strictly below the upper one. |
| Validation.LowConfidenceNeverAccepts | lifetimes/validation.py:73-81 | With a percentile that grows with the level, a confidence ≤ 0.5 accepts no observed value: the level c·100 is then at most (1−c)·100, so upr ≤ lwr. |
| Validation.Verdict | lifetimes/validation.py:73-81 | `np.percentile` raises a ValueError exactly when the confidence lies outside [0, 1], since one of its levels (1−c)·100 and c·100 then leaves [0, 100]. Otherwise the verdict is the accept rule. |
| Validation.Simulated | lifetimes/validation.py:55-70 | For simulation_size ≤ 0 there are no simulated objectives. Fixed-parameter replicates, used with test data, always succeed. Otherwise the list has one objective per iteration: the i-th refitted or fixed-parameter replicate. |
| Validation.GoodnessOutcome | lifetimes/validation.py:44-81 | A failed fit check propagates. Test data without `N` gives a KeyError. Otherwise the outcome is the strict rule lwr < n_ll < upr, over the percentiles (1−c)·100 and c·100 of the simulated values. A verdict exists only for a confidence in [0, 1]. |
| Validation.GoodnessOfTestUsing | lifetimes/validation.py:44-81 | Fitting, computing the observed objective, simulating and deciding give exactly `GoodnessOutcome`. |
| Validation.GoodnessOfTestAsWritten | lifetimes/validation.py:15-70 | As written, the replicates are generated with the default penalizer 0.1, whatever penalizer the test was given. |
| Validation.GoodnessOfTest | lifetimes/validation.py:52-70 | Corrected, the replicates use the test's own penalizer. |
| Validation.AsCompressed | lifetimes/validation.py:61-64 | The rows a generator returns for a data set with counts have that data set's columns. |
| Validation.ForwardedReplicateMatchesObserved | lifetimes/validation.py:61-70 | With the penalizer forwarded, a fixed-parameter replicate whose batch is the test data reproduces the observed objective. |
| Validation.PenalizerChangesObjective | lifetimes/estimation.py:1302-1309 | The BG objective depends on the penalizer through `penalizer · Σ log(params)`: two penalizers give two objectives when Σ log ≠ 0. |
| Validation.AsWrittenReplicateMissesObserved | lifetimes/validation.py:15-70 | As written, the same replicate differs from the observed objective whenever the test's penalizer is not 0.1. |

## Left out

- Floating point: special functions, `log`, `exp`, `**`, `sqrt`, `np.percentile` and `np.std` are uninterpreted kernels. Rounding, NaN propagation and the infinities of `log(0)` are not modelled. There are three exceptions. The explicit `Objective.Inf` result of the guards is modelled. So is the +inf of the BG scalar path for x > T, which comes from `np.log(0)` of its zero numerator (lifetimes/estimation.py:1284-1291 and 1300). And a zero divisor goes to the `divByZero` kernel.
- numpy broadcasting: weights, frequency and age columns are required to be equally long. A scalar against a vector, and the shape errors numpy raises for mismatched lengths, are not modelled.
- The analytic gradients and delta-method partial derivatives (lifetimes/estimation.py:321-326, 729-776, 873-880, 1405-1417) are kernels (`Kernels.partial` and `Kernels.bgbbGradient`). No claim is made that they are derivatives.
- The gradient loops `sum_term_*[j] +=` (lifetimes/estimation.py:752-760) belong to the gradient computation above and are left out with it.
- The formulas of the Pareto/NBD, BG/NBD and MBG/NBD `conditional_probability_alive` are passed to the matrix fill as the function `pAlive`, over the parameters each unloads. MBG/NBD reaches the BG/NBD matrix through `super`. Derived.ProbabilityAliveMatrix models the unload once, at the first cell: `params_` does not change during the loops, so every later unload gives the same result.
- The NaN/inf masking of `A_4` in BG/NBD (lifetimes/estimation.py:412) is a floating-point effect. The row log-likelihood models it as the weight `(frequency > 0)` of the second log-sum-exp term.
- `_fit`, `_check_inputs`, `_scale_time`, `ncr`, `gamma_ratio`, `multinomial_sample` and `customer_lifetime_value` live in files that are not part of this model. `_fit` is the `optimise` parameter. `ncr` and `gamma_ratio` are kernels.
- Only `BGFitter.fit` (lifetimes/estimation.py:1311-1356) is modelled as a method (Fitters.BgFitter.Fit). The fit methods of the other fitters are left out. Each calls `_fit` and assigns `params_` and `data`, and all but Gamma-Gamma assign `generate_new_data`.
- `GammaGammaFitter.fit` (lifetimes/estimation.py:87-114) calls no input check. The Pareto/NBD, BG/NBD, BG/BB, BG/BB/BG and extension fits call `_check_inputs` (lines 163, 375, 801, 994 and 1130).
- `BetaGeoFitter.fit` also rescales recency and T by `_scale_time(T)` before `_fit`, and divides the fitted alpha by that scale (lifetimes/estimation.py:377-389). `ModifiedBetaGeoFitter.fit` runs it through `super` and reassigns `generate_new_data` (lines 551-555).
- Besides BG, only BG/BB, BG/BB/BG and the extension build `gen_t` from (T, N) (lifetimes/estimation.py:804-807, 996-999 and 1132-1135). That expansion is modelled (AgeExpansion). Pareto/NBD, BG/NBD, MBG/NBD and Gamma-Gamma build none.
- Likelihood.BgScalarNegLogLik: for x > T with a weight N ≤ 0, numpy's `-(llj * N)` with `llj = -inf` is NaN (N = 0) or −inf (N < 0). The model returns +inf for every x > T. A weight given as a list against a scalar x is not modelled either: it is broadcasting.
- The data generators, `compress_bgext_data` and the `generate_new_data` lambdas are the `sample` parameter. `np.random.uniform` is the `draws` parameter.
- Validation.GenerateNegLikelihoods: only the BG fitter is modelled as `fitter` and `fitter_class`. The validator is written for any fitter class, but its own use is the BG model.
- Validation.Accepts: what `np.percentile` does with an empty list of simulated objectives depends on the numpy version. It may return NaN, which no comparison passes, or raise. The model leaves this to the `percentile` kernel and does not model a raise. The percentile of a list containing +inf is also whatever the kernel returns.
- Validation.Replicate: `params.values()` (lifetimes/validation.py:36 and 62) is indexed as `params[0]` by the BG objective (lifetimes/estimation.py:1271). This follows the Python 2 reading, where `values()` is a list in insertion order. Under Python 3, `odict_values` is not subscriptable, so fixed-parameter replicates and the test-data objective would raise a TypeError. That failure is not modelled (also Validation.Simulated, Validation.GoodnessOutcome).
- The BG/BB scalar path (lifetimes/estimation.py:695-700) is not modelled separately. Its finite sum uses the same index range as the vector path (Likelihood.BgbbSumRange).
- `static_limit_number_of_purchases`, the closed-form expectations of Pareto/NBD and BG/BB, and the BG/BB/BG session quantities that only forward to BG/BB (lifetimes/estimation.py:1217-1256) are single kernel expressions with no discrete logic.
- `__repr__`, `_print_params`, verbose printing, matplotlib plotting and the `__main__` block of lifetimes/validation.py (lines 106-140) are presentation and I/O.
- Fitters.ConversionFitter.ConversionErrorOf: `params_.copy()` returns a fresh dictionary, and aliasing between the copy and the caller's dictionary is not modelled. The state is a value.
- Fitters.BgFitter.Fit: `iterative_fitting`, `initial_params` and `verbose` are options of `_fit` and are folded into the `optimise` parameter.

## Findings

| source | as written | input that shows it | evidently intended | confidence | as-written member | corrected member |
|---|---|---|---|---|---|---|
| lifetimes/estimation.py:1444-1445 | `n == 0` is tested before `n < t`, so t = n = 0 yields B(a+1, b)/B(a, b) = a/(a+b) | `static_probability_of_n_purchases_up_to_time(a, b, 0, 0)` | P(N(0) = 0) = 1: over zero periods the likelihood's own term B(a, b) applies | high, not executed | Derived.BgPmfAsWritten (Derived.BgPmfAtZeroHorizon) | Derived.BgPmf (Derived.BgPmfAtZeroHorizon, Derived.BgPmfBranchesAgreeAwayFromZero) |
| lifetimes/estimation.py:22-36 | `hasattr(self, 'params_')` is always true because `params_ = None` is a class attribute, so an unfitted model raises a TypeError from indexing `None` (or returns `[]` for no names) | `_unload_params('alpha')` on a fresh fitter | the "Model has not been fit yet" ValueError | high, not executed | FittedParams.UnloadParamsAsWritten (FittedParams.NotFittedGuardUnreachable) | FittedParams.UnloadParams (FittedParams.NotFittedGuardUnreachable) |
| lifetimes/estimation.py:52-53 | the guard rejects only `i < 0`, so a zero parameter reaches `gammaln(0)` and `log(0)` | params (0, q, v) | reject every parameter ≤ 0, as every other evaluator does | medium, not executed | Likelihood.GammaGammaNegLogLikAsWritten (Likelihood.GammaGammaZeroParameterAccepted) | Likelihood.GammaGammaNegLogLik (Likelihood.GammaGammaZeroParameterAccepted) |
| lifetimes/validation.py:57-70 | `generate_neg_likelihoods` is called without `penalizer_coef`, so the replicates use the default 0.1 while the observed objective uses the caller's penalizer | `goodness_of_test(..., penalizer_coef=0.0, test_data=d)`, with a replicate batch equal to `d` | observed objective and replicates computed with the same penalizer | medium, not executed | Validation.GoodnessOfTestAsWritten (Validation.AsWrittenReplicateMissesObserved) | Validation.GoodnessOfTest (Validation.ForwardedReplicateMatchesObserved) |
