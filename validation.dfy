// The validator of lifetimes/validation.py: the random train/test split of compressed
// data, the loop that collects simulated objectives of the BG model, and the
// goodness-of-fit decision. Random draws and the data generator are inputs.

module Validation {
  import opened Common
  import opened AgeExpansion
  import opened FittedParams
  import opened Likelihood
  import opened Fitters

  // ---------------------------------------------------------------------------
  // split_dataset
  // ---------------------------------------------------------------------------

  /** A row of a compressed data frame: its other columns and its weight column `N`. */
  datatype WeightedRow<C> = WeightedRow(columns: C, n: int)

  /** The units drawn for the rows before row i: one draw per unit of `range(N_j)`. */
  function UnitsBefore<C>(data: seq<WeightedRow<C>>, i: nat): nat
    requires i <= |data|
  {
    if i == 0 then 0 else UnitsBefore(data, i - 1) + Pos(data[i - 1].n)
  }

  /** How many of the draws at start, ..., start + n - 1 are below the ratio. */
  function CountBelow(draws: nat -> real, start: nat, n: nat, ratio: real): (c: nat)
    ensures c <= n
  {
    if n == 0 then 0
    else CountBelow(draws, start, n - 1, ratio) + (if draws(start + n - 1) < ratio then 1 else 0)
  }

  /** The units of row i that go to the test set: those whose draw is below the ratio. */
  function RowTestCount<C>(data: seq<WeightedRow<C>>, draws: nat -> real, ratio: real, i: nat): (c: nat)
    requires i < |data|
    ensures c <= Pos(data[i].n)
  {
    CountBelow(draws, UnitsBefore(data, i), Pos(data[i].n), ratio)
  }

  /** The units of row i that stay for training. */
  function RowTrainCount<C>(data: seq<WeightedRow<C>>, draws: nat -> real, ratio: real, i: nat): (c: nat)
    requires i < |data|
    ensures c + RowTestCount(data, draws, ratio, i) == Pos(data[i].n)
  {
    Pos(data[i].n) - RowTestCount(data, draws, ratio, i)
  }

  /** `test_N`: the units of each row whose draw fell below the ratio. */
  function TestCounts<C>(data: seq<WeightedRow<C>>, draws: nat -> real, ratio: real): (r: seq<int>)
    ensures |r| == |data|
    ensures forall i :: 0 <= i < |data| ==> r[i] == RowTestCount(data, draws, ratio, i)
  {
    seq(|data|, (i: int) requires 0 <= i < |data| => RowTestCount(data, draws, ratio, i))
  }

  /** `train_N`: the other units of each row. */
  function TrainCounts<C>(data: seq<WeightedRow<C>>, draws: nat -> real, ratio: real): (r: seq<int>)
    ensures |r| == |data|
    ensures forall i :: 0 <= i < |data| ==> r[i] == RowTrainCount(data, draws, ratio, i)
  {
    seq(|data|, (i: int) requires 0 <= i < |data| => RowTrainCount(data, draws, ratio, i))
  }

  /** The split conserves every row's units: both counts are non-negative and they add up
      to `N[i]` (to zero for a negative `N[i]`, whose `range` is empty). */
  lemma {:induction false} SplitConservesUnits<C>(data: seq<WeightedRow<C>>, draws: nat -> real, ratio: real, i: nat)
    requires i < |data|
    ensures TestCounts(data, draws, ratio)[i] >= 0 && TrainCounts(data, draws, ratio)[i] >= 0
    ensures data[i].n >= 0 ==> TestCounts(data, draws, ratio)[i] + TrainCounts(data, draws, ratio)[i] == data[i].n
    ensures data[i].n < 0 ==> TestCounts(data, draws, ratio)[i] == 0 && TrainCounts(data, draws, ratio)[i] == 0
  {
  }

  /** `data.copy(deep=True)` with the column `N` replaced. */
  function Reweight<C>(data: seq<WeightedRow<C>>, ns: seq<int>): (r: seq<WeightedRow<C>>)
    requires |ns| == |data|
    ensures |r| == |data|
    ensures forall i :: 0 <= i < |data| ==> r[i].columns == data[i].columns && r[i].n == ns[i]
  {
    seq(|data|, (i: int) requires 0 <= i < |data| => WeightedRow(data[i].columns, ns[i]))
  }

  /** `frame[frame['N'] > 0]`: the rows of positive weight. */
  function KeepPositive<C>(rows: seq<WeightedRow<C>>): (r: seq<WeightedRow<C>>)
    ensures |r| <= |rows|
    ensures forall i :: 0 <= i < |r| ==> r[i].n > 0
  {
    if |rows| == 0 then []
    else
      var last := rows[|rows| - 1];
      KeepPositive(rows[..|rows| - 1]) + (if last.n > 0 then [last] else [])
  }

  /** A row is kept exactly when it is a row of the input with positive weight. */
  lemma {:induction false} KeepPositiveMembers<C>(rows: seq<WeightedRow<C>>, x: WeightedRow<C>)
    ensures x in KeepPositive(rows) <==> x in rows && x.n > 0
    decreases |rows|
  {
    if |rows| > 0 {
      var front := rows[..|rows| - 1];
      KeepPositiveMembers(front, x);
      assert rows == front + [rows[|rows| - 1]];
    }
  }

  /** Rows that all have weight <= 0 are all dropped. */
  lemma {:induction false} KeepPositiveNone<C>(rows: seq<WeightedRow<C>>)
    requires forall i :: 0 <= i < |rows| ==> rows[i].n <= 0
    ensures KeepPositive(rows) == []
    decreases |rows|
  {
    if |rows| > 0 {
      KeepPositiveNone(rows[..|rows| - 1]);
    }
  }

  /** Filtering distributes over concatenation: the kept rows stay in their order. */
  lemma {:induction false} KeepPositiveAppend<C>(a: seq<WeightedRow<C>>, b: seq<WeightedRow<C>>)
    ensures KeepPositive(a + b) == KeepPositive(a) + KeepPositive(b)
    decreases |b|
  {
    if |b| == 0 {
      assert a + b == a;
    } else {
      var n := |b| - 1;
      assert (a + b)[..|a + b| - 1] == a + b[..n];
      assert (a + b)[|a + b| - 1] == b[n];
      KeepPositiveAppend(a, b[..n]);
    }
  }

  /** Rows that all have positive weight are all kept, unchanged and in order. */
  lemma {:induction false} KeepPositiveAll<C>(rows: seq<WeightedRow<C>>)
    requires forall i :: 0 <= i < |rows| ==> rows[i].n > 0
    ensures KeepPositive(rows) == rows
    decreases |rows|
  {
    if |rows| > 0 {
      KeepPositiveAll(rows[..|rows| - 1]);
      assert rows == rows[..|rows| - 1] + [rows[|rows| - 1]];
    }
  }

  /** Replacing a non-positive weight by zero does not change which rows are kept. */
  lemma {:induction false} KeepPositiveOfPos<C>(data: seq<WeightedRow<C>>, ns: seq<int>)
    requires |ns| == |data|
    requires forall i :: 0 <= i < |data| ==> ns[i] == Pos(data[i].n)
    ensures KeepPositive(Reweight(data, ns)) == KeepPositive(data)
    decreases |data|
  {
    if |data| > 0 {
      var n := |data| - 1;
      assert Reweight(data, ns)[..n] == Reweight(data[..n], ns[..n]);
      KeepPositiveOfPos(data[..n], ns[..n]);
    }
  }

  /** With no draw below a ratio <= 0, no unit goes to the test set. */
  lemma {:induction false} CountBelowNone(draws: nat -> real, start: nat, n: nat, ratio: real)
    requires ratio <= 0.0
    requires forall u: nat :: draws(u) >= 0.0
    ensures CountBelow(draws, start, n, ratio) == 0
  {
    if n > 0 {
      CountBelowNone(draws, start, n - 1, ratio);
    }
  }

  /** With every draw below 1 and a ratio >= 1, every unit goes to the test set. */
  lemma {:induction false} CountBelowAll(draws: nat -> real, start: nat, n: nat, ratio: real)
    requires ratio >= 1.0
    requires forall u: nat :: draws(u) < 1.0
    ensures CountBelow(draws, start, n, ratio) == n
  {
    if n > 0 {
      CountBelowAll(draws, start, n - 1, ratio);
    }
  }

  /** With draws in [0, 1) a ratio <= 0 keeps every unit for training. */
  lemma {:induction false} SplitAllToTrain<C>(data: seq<WeightedRow<C>>, draws: nat -> real, ratio: real)
    requires ratio <= 0.0
    requires forall u: nat :: draws(u) >= 0.0
    ensures KeepPositive(Reweight(data, TestCounts(data, draws, ratio))) == []
    ensures KeepPositive(Reweight(data, TrainCounts(data, draws, ratio))) == KeepPositive(data)
  {
    var test := TestCounts(data, draws, ratio);
    var train := TrainCounts(data, draws, ratio);
    forall i | 0 <= i < |data|
      ensures test[i] == 0 && train[i] == Pos(data[i].n)
    {
      CountBelowNone(draws, UnitsBefore(data, i), Pos(data[i].n), ratio);
    }
    KeepPositiveOfPos(data, train);
    KeepPositiveNone(Reweight(data, test));
  }

  /** With draws in [0, 1) a ratio >= 1 sends every unit to the test set. */
  lemma {:induction false} SplitAllToTest<C>(data: seq<WeightedRow<C>>, draws: nat -> real, ratio: real)
    requires ratio >= 1.0
    requires forall u: nat :: draws(u) < 1.0
    ensures KeepPositive(Reweight(data, TestCounts(data, draws, ratio))) == KeepPositive(data)
    ensures KeepPositive(Reweight(data, TrainCounts(data, draws, ratio))) == []
  {
    var test := TestCounts(data, draws, ratio);
    var train := TrainCounts(data, draws, ratio);
    forall i | 0 <= i < |data|
      ensures test[i] == Pos(data[i].n) && train[i] == 0
    {
      CountBelowAll(draws, UnitsBefore(data, i), Pos(data[i].n), ratio);
    }
    KeepPositiveOfPos(data, test);
    KeepPositiveNone(Reweight(data, train));
  }

  /** The inner loop of `split_dataset` for one row: each of the `range(n)` units draws
      once, starting at draw number `start`, and is counted for the test set when its draw
      is below the ratio, for training otherwise. */
  method SplitUnits(draws: nat -> real, start: nat, n: int, ratio: real) returns (toTest: int, toTrain: int)
    ensures toTest == CountBelow(draws, start, Pos(n), ratio)
    ensures toTrain == Pos(n) - toTest
  {
    toTest, toTrain := 0, 0;
    var u := 0;
    while u < n
      invariant 0 <= u <= Pos(n)
      invariant toTest == CountBelow(draws, start, u, ratio)
      invariant toTrain == u - toTest
    {
      if draws(start + u) < ratio {
        toTest := toTest + 1;
      } else {
        toTrain := toTrain + 1;
      }
      u := u + 1;
    }
  }

  /** `split_dataset(data, test_size_ratio)`. `draws(u)` is the u-th value of
      `np.random.uniform()`; a unit goes to the test set exactly when its draw is below the
      ratio. Returns (train, test). */
  method SplitDataset<C>(data: seq<WeightedRow<C>>, ratio: real, draws: nat -> real)
    returns (train: seq<WeightedRow<C>>, test: seq<WeightedRow<C>>)
    ensures test == KeepPositive(Reweight(data, TestCounts(data, draws, ratio)))
    ensures train == KeepPositive(Reweight(data, TrainCounts(data, draws, ratio)))
  {
    var testN: seq<int> := [];
    var trainN: seq<int> := [];
    var cursor: nat := 0;
    var i := 0;
    while i < |data|
      invariant 0 <= i <= |data|
      invariant |testN| == i && |trainN| == i
      invariant cursor == UnitsBefore(data, i)
      invariant forall m :: 0 <= m < i ==> testN[m] == RowTestCount(data, draws, ratio, m)
      invariant forall m :: 0 <= m < i ==> trainN[m] == RowTrainCount(data, draws, ratio, m)
    {
      var n := data[i].n;
      var toTest, toTrain := SplitUnits(draws, cursor, n, ratio);
      assert toTest == RowTestCount(data, draws, ratio, i);
      assert toTrain == RowTrainCount(data, draws, ratio, i);
      testN := testN + [toTest];
      trainN := trainN + [toTrain];
      cursor := cursor + Pos(n);
      i := i + 1;
    }
    assert testN == TestCounts(data, draws, ratio);
    assert trainN == TrainCounts(data, draws, ratio);
    test := KeepPositive(Reweight(data, testN));
    train := KeepPositive(Reweight(data, trainN));
  }

  // ---------------------------------------------------------------------------
  // generate_neg_likelihoods
  // ---------------------------------------------------------------------------

  /** A row of compressed generated data: frequency, age `T` and count `N`. */
  datatype CompressedRow = CompressedRow(frequency: int, age: int, count: int)

  function FrequencyColumn(rows: seq<CompressedRow>): (r: seq<int>)
    ensures |r| == |rows| && forall i :: 0 <= i < |rows| ==> r[i] == rows[i].frequency
  {
    seq(|rows|, (i: int) requires 0 <= i < |rows| => rows[i].frequency)
  }

  function AgeColumn(rows: seq<CompressedRow>): (r: seq<int>)
    ensures |r| == |rows| && forall i :: 0 <= i < |rows| ==> r[i] == rows[i].age
  {
    seq(|rows|, (i: int) requires 0 <= i < |rows| => rows[i].age)
  }

  function CountColumn(rows: seq<CompressedRow>): (r: seq<int>)
    ensures |r| == |rows| && forall i :: 0 <= i < |rows| ==> r[i] == rows[i].count
  {
    seq(|rows|, (i: int) requires 0 <= i < |rows| => rows[i].count)
  }

  /** The ages handed to the generator: `test_ts` when it is truthy (given and not
      empty), the fitter's own `gen_t` otherwise. */
  function ReplicateAges(testTs: Option<seq<int>>, genT: seq<int>): (r: seq<int>)
    ensures testTs.Some? && |testTs.value| > 0 ==> r == testTs.value
    ensures testTs.None? || |testTs.value| == 0 ==> r == genT
  {
    if testTs.Some? && |testTs.value| > 0 then testTs.value else genT
  }

  /** Replicate i of the loop. `sample(i, ts, alpha, beta, size)` is the compressed data
      `generate_new_data(size=size, compressed=True, ts=ts)` returns in iteration i. With
      refit, a fresh fitter with the given penalizer is fitted to it and its achieved
      objective is the entry; otherwise the entry is the objective of the fixed
      parameters on that batch. */
  function Replicate(k: Kernels, optimise: (seq<BgRow>, real, Option<seq<int>>) -> BgFitResult,
                     sample: (nat, seq<int>, real, real, nat) -> seq<CompressedRow>,
                     alpha: real, beta: real, ts: seq<int>, penalizer: real, size: nat,
                     refit: bool, i: nat): (r: Result<Objective, Error>)
    ensures !refit ==> r.Ok?
  {
    var batch := sample(i, ts, alpha, beta, size);
    var frequency, T, N := FrequencyColumn(batch), AgeColumn(batch), CountColumn(batch);
    if refit then
      match BgFitChecks(frequency, T)
      case Fail(e) => Err(e)
      case Pass => Ok(Finite(optimise(Rows(frequency, T), penalizer, Some(N)).objective))
    else
      Ok(BgNegLogLik(k, [alpha, beta], Rows(frequency, T), penalizer, Some(N)))
  }

  /** The outcomes 0 .. n-1 of a loop that stops at its first error: all the values in
      iteration order, or the error of the first outcome that fails. */
  function FirstErrorOrAll<T, E>(outcome: nat -> Result<T, E>, n: nat): (r: Result<seq<T>, E>)
  {
    if n == 0 then Ok([])
    else
      match FirstErrorOrAll(outcome, n - 1)
      case Err(e) => Err(e)
      case Ok(entries) =>
        match outcome(n - 1)
        case Err(e) => Err(e)
        case Ok(entry) => Ok(entries + [entry])
  }

  /** A successful run holds every value in iteration order; a failed one carries the
      error of the first outcome that fails. */
  lemma {:induction false} FirstErrorOrAllMeaning<T, E>(outcome: nat -> Result<T, E>, n: nat)
    ensures FirstErrorOrAll(outcome, n).Ok? ==>
      |FirstErrorOrAll(outcome, n).value| == n &&
      forall i :: 0 <= i < n ==> outcome(i) == Ok(FirstErrorOrAll(outcome, n).value[i])
    ensures FirstErrorOrAll(outcome, n).Err? ==>
      exists i :: 0 <= i < n && outcome(i) == Err(FirstErrorOrAll(outcome, n).error) &&
                  forall j :: 0 <= j < i ==> outcome(j).Ok?
  {
    if n > 0 {
      FirstErrorOrAllMeaning(outcome, n - 1);
    }
  }

  /** Once an outcome fails, later iterations do not change the result. */
  lemma {:induction false} FirstErrorPersists<T, E>(outcome: nat -> Result<T, E>, m: nat, n: nat)
    requires m <= n
    requires FirstErrorOrAll(outcome, m).Err?
    ensures FirstErrorOrAll(outcome, n) == FirstErrorOrAll(outcome, m)
    decreases n
  {
    if m < n {
      FirstErrorPersists(outcome, m, n - 1);
    }
  }

  function ReplicateFn(k: Kernels, optimise: (seq<BgRow>, real, Option<seq<int>>) -> BgFitResult,
                       sample: (nat, seq<int>, real, real, nat) -> seq<CompressedRow>,
                       alpha: real, beta: real, ts: seq<int>, penalizer: real, size: nat,
                       refit: bool): nat -> Result<Objective, Error>
  {
    (i: nat) => Replicate(k, optimise, sample, alpha, beta, ts, penalizer, size, refit, i)
  }

  /** The first n replicates in iteration order, or the error of the first that fails. */
  function Replicates(k: Kernels, optimise: (seq<BgRow>, real, Option<seq<int>>) -> BgFitResult,
                      sample: (nat, seq<int>, real, real, nat) -> seq<CompressedRow>,
                      alpha: real, beta: real, ts: seq<int>, penalizer: real, size: nat,
                      refit: bool, n: nat): (r: Result<seq<Objective>, Error>)
    ensures r.Ok? ==> |r.value| == n
    ensures r.Ok? ==> forall i :: 0 <= i < n ==>
              Replicate(k, optimise, sample, alpha, beta, ts, penalizer, size, refit, i) == Ok(r.value[i])
    ensures r.Err? ==> (exists i :: 0 <= i < n &&
                          Replicate(k, optimise, sample, alpha, beta, ts, penalizer, size, refit, i) == Err(r.error))
    ensures r.Err? <==> (exists i :: 0 <= i < n &&
                           Replicate(k, optimise, sample, alpha, beta, ts, penalizer, size, refit, i).Err?)
  {
    FirstErrorOrAllMeaning(ReplicateFn(k, optimise, sample, alpha, beta, ts, penalizer, size, refit), n);
    FirstErrorOrAll(ReplicateFn(k, optimise, sample, alpha, beta, ts, penalizer, size, refit), n)
  }

  /** Once a replicate fails, the loop reports that error however many iterations remain. */
  lemma {:induction false} ReplicatesKeepFirstError(
    k: Kernels, optimise: (seq<BgRow>, real, Option<seq<int>>) -> BgFitResult,
    sample: (nat, seq<int>, real, real, nat) -> seq<CompressedRow>,
    alpha: real, beta: real, ts: seq<int>, penalizer: real, size: nat, refit: bool, m: nat, n: nat)
    requires m <= n
    requires Replicates(k, optimise, sample, alpha, beta, ts, penalizer, size, refit, m).Err?
    ensures Replicates(k, optimise, sample, alpha, beta, ts, penalizer, size, refit, n)
            == Replicates(k, optimise, sample, alpha, beta, ts, penalizer, size, refit, m)
  {
    FirstErrorPersists(ReplicateFn(k, optimise, sample, alpha, beta, ts, penalizer, size, refit), m, n);
  }

  /** Without refitting, every replicate is evaluated and none fails. */
  lemma {:induction false} FixedParameterReplicatesSucceed(
    k: Kernels, optimise: (seq<BgRow>, real, Option<seq<int>>) -> BgFitResult,
    sample: (nat, seq<int>, real, real, nat) -> seq<CompressedRow>,
    alpha: real, beta: real, ts: seq<int>, penalizer: real, size: nat, n: nat)
    ensures Replicates(k, optimise, sample, alpha, beta, ts, penalizer, size, false, n).Ok?
  {
  }

  /** The BG parameters of a fitted model, in the order of `params_.values()`. */
  function FittedAlphaBeta(s: FitState): (real, real)
    requires s.Fitted? && UnloadParams(s, ["alpha", "beta"]).Ok?
  {
    var v := UnloadParams(s, ["alpha", "beta"]).value;
    (v[0], v[1])
  }

  /** One pass of the loop of `generate_neg_likelihoods`: draw a batch, then either fit
      a fresh fitter to it (refit) or evaluate the fixed parameters on it. */
  method RunReplicate(k: Kernels, optimise: (seq<BgRow>, real, Option<seq<int>>) -> BgFitResult,
                      sample: (nat, seq<int>, real, real, nat) -> seq<CompressedRow>,
                      alpha: real, beta: real, ts: seq<int>, penalizer: real, size: nat,
                      refit: bool, i: nat) returns (r: Result<Objective, Error>)
    ensures r == Replicate(k, optimise, sample, alpha, beta, ts, penalizer, size, refit, i)
  {
    var batch := sample(i, ts, alpha, beta, size);
    var frequency, T, N := FrequencyColumn(batch), AgeColumn(batch), CountColumn(batch);
    if refit {
      var current := new BgFitter(penalizer);
      var outcome := current.Fit(optimise, frequency, T, Some(N));
      if outcome.Fail? {
        return Err(outcome.error);
      }
      r := Ok(Finite(current.negLogLik.value));
    } else {
      r := Ok(BgNegLogLik(k, [alpha, beta], Rows(frequency, T), penalizer, Some(N)));
    }
  }

  /** `generate_neg_likelihoods(fitter, test_ts, penalizer_coef, size, simulation_size,
      refit)` for a BG fitter: `simulation_size` entries in iteration order, or the error
      of the first replicate whose fit rejects its data. An unfitted fitter has no
      generator, which matters once the loop runs at all. */
  method GenerateNegLikelihoods(k: Kernels, fitter: BgFitter,
                                optimise: (seq<BgRow>, real, Option<seq<int>>) -> BgFitResult,
                                sample: (nat, seq<int>, real, real, nat) -> seq<CompressedRow>,
                                testTs: Option<seq<int>>, penalizer: real, size: nat,
                                simulationSize: int, refit: bool) returns (r: Result<seq<Objective>, Error>)
    requires fitter.Valid()
    ensures simulationSize <= 0 ==> r == Ok([])
    ensures simulationSize > 0 && fitter.state.Unfitted? ==> r == Err(NoGenerator)
    ensures simulationSize > 0 && fitter.state.Fitted? ==>
      r == Replicates(k, optimise, sample, FittedAlphaBeta(fitter.state).0, FittedAlphaBeta(fitter.state).1,
                      ReplicateAges(testTs, fitter.genT.value), penalizer, size, refit, simulationSize)
  {
    if simulationSize <= 0 {
      return Ok([]);
    }
    if fitter.state.Unfitted? {
      return Err(NoGenerator);
    }
    var alpha, beta := FittedAlphaBeta(fitter.state).0, FittedAlphaBeta(fitter.state).1;
    var ts := ReplicateAges(testTs, fitter.genT.value);
    r := RunReplicates(k, optimise, sample, alpha, beta, ts, penalizer, size, refit, simulationSize);
  }

  /** The loop of `generate_neg_likelihoods`: the entries are appended in iteration
      order, and the first replicate that fails ends the loop with its error. */
  method RunReplicates(k: Kernels, optimise: (seq<BgRow>, real, Option<seq<int>>) -> BgFitResult,
                       sample: (nat, seq<int>, real, real, nat) -> seq<CompressedRow>,
                       alpha: real, beta: real, ts: seq<int>, penalizer: real, size: nat,
                       refit: bool, n: nat) returns (r: Result<seq<Objective>, Error>)
    ensures r == Replicates(k, optimise, sample, alpha, beta, ts, penalizer, size, refit, n)
  {
    var entries: seq<Objective> := [];
    var i := 0;
    while i < n
      invariant 0 <= i <= n
      invariant Replicates(k, optimise, sample, alpha, beta, ts, penalizer, size, refit, i) == Ok(entries)
    {
      var entry := RunReplicate(k, optimise, sample, alpha, beta, ts, penalizer, size, refit, i);
      if entry.Err? {
        ReplicatesKeepFirstError(k, optimise, sample, alpha, beta, ts, penalizer, size, refit, i + 1, n);
        return Err(entry.error);
      }
      entries := entries + [entry.value];
      i := i + 1;
    }
    r := Ok(entries);
  }

  // ---------------------------------------------------------------------------
  // goodness_of_test
  // ---------------------------------------------------------------------------

  /** The columns `frequency`, `T` and, when present, `N` of a BG data set. */
  datatype BgData = BgData(frequency: seq<int>, T: seq<int>, N: Option<seq<int>>)

  predicate WellFormed(d: BgData) {
    |d.frequency| == |d.T| && (d.N.Some? ==> |d.N.value| == |d.T|)
  }

  /** `x < y` for objectives, +inf being larger than every number and not below itself. */
  predicate Below(x: Objective, y: Objective) {
    match x
    case Inf => false
    case Finite(a) => y.Inf? || a < y.value
  }

  /** `Below` is a strict order. */
  lemma {:induction false} BelowStrictOrder(x: Objective, y: Objective, z: Objective)
    ensures !Below(x, x)
    ensures Below(x, y) && Below(y, z) ==> Below(x, z)
    ensures Below(x, y) ==> !Below(y, x)
  {
  }

  /** The accept rule `lwr < n_ll < upr`, strict on both sides, with the bounds the
      percentiles of the simulated objectives at (1 - c)·100 and c·100. An accepted value
      is finite and the lower bound lies below the upper one. */
  function Accepts(k: Kernels, simulated: seq<Objective>, observed: Objective, confidence: real): (r: bool)
    ensures r ==> observed.Finite?
    ensures r ==> Below(k.percentile(simulated, (1.0 - confidence) * 100.0), k.percentile(simulated, confidence * 100.0))
  {
    var lwr := k.percentile(simulated, (1.0 - confidence) * 100.0);
    var upr := k.percentile(simulated, confidence * 100.0);
    BelowStrictOrder(lwr, observed, upr);
    Below(lwr, observed) && Below(observed, upr)
  }

  /** With percentiles that grow with the level, no confidence of one half or less ever
      accepts: the level c·100 is then at most (1 - c)·100, so the upper bound is at most
      the lower one and nothing lies strictly between them. */
  lemma {:induction false} LowConfidenceNeverAccepts(k: Kernels, simulated: seq<Objective>, observed: Objective, confidence: real)
    requires forall p: real, q: real :: p <= q ==> !Below(k.percentile(simulated, q), k.percentile(simulated, p))
    requires confidence <= 0.5
    ensures !Accepts(k, simulated, observed, confidence)
  {
  }

  /** A level `np.percentile` accepts. */
  predicate PercentileLevel(q: real) {
    0.0 <= q <= 100.0
  }

  /** `np.percentile(n_lls, [(1 - c)·100, c·100])` and then the accept rule: numpy raises
      a ValueError for a level outside [0, 100], which happens exactly for a confidence
      outside [0, 1]. */
  function Verdict(k: Kernels, simulated: seq<Objective>, observed: Objective, confidence: real): (r: Result<bool, Error>)
    ensures r.Err? <==> confidence < 0.0 || confidence > 1.0
    ensures r.Err? ==> r.error == PercentileOutOfRange
    ensures r.Ok? ==> r.value == Accepts(k, simulated, observed, confidence)
  {
    if !PercentileLevel((1.0 - confidence) * 100.0) || !PercentileLevel(confidence * 100.0) then Err(PercentileOutOfRange)
    else Ok(Accepts(k, simulated, observed, confidence))
  }

  /** The simulated objectives `goodness_of_test` compares with, given the fitted
      parameters: refitted replicates on the fitter's own ages without test data, or
      fixed-parameter replicates on the expanded test ages with test data. */
  function Simulated(k: Kernels, optimise: (seq<BgRow>, real, Option<seq<int>>) -> BgFitResult,
                     sample: (nat, seq<int>, real, real, nat) -> seq<CompressedRow>,
                     alpha: real, beta: real, genT: seq<int>, testTs: Option<seq<int>>,
                     replicatePenalizer: real, simulationSize: int): (r: Result<seq<Objective>, Error>)
    ensures simulationSize <= 0 ==> r == Ok([])
    ensures testTs.Some? ==> r.Ok?
    ensures r.Ok? ==> |r.value| == Pos(simulationSize)
    ensures r.Ok? ==> forall i :: 0 <= i < |r.value| ==>
              Replicate(k, optimise, sample, alpha, beta, ReplicateAges(testTs, genT), replicatePenalizer, 100,
                        testTs.None?, i) == Ok(r.value[i])
  {
    if simulationSize <= 0 then Ok([])
    else
      var ts := ReplicateAges(testTs, genT);
      if testTs.Some? then
        FixedParameterReplicatesSucceed(k, optimise, sample, alpha, beta, ts, replicatePenalizer, 100, simulationSize);
        Replicates(k, optimise, sample, alpha, beta, ts, replicatePenalizer, 100, false, simulationSize)
      else
        Replicates(k, optimise, sample, alpha, beta, ts,
                    replicatePenalizer, 100, testTs.None?, simulationSize)
  }

  /** The outcome of `goodness_of_test` when the replicates are generated with
      `replicatePenalizer`: the fit of `data` may reject it; with test data the observed
      objective is that of the fitted parameters on the test data, whose column `N` must
      exist; otherwise it is the objective the fit reached. */
  function GoodnessOutcome(k: Kernels, optimise: (seq<BgRow>, real, Option<seq<int>>) -> BgFitResult,
                           sample: (nat, seq<int>, real, real, nat) -> seq<CompressedRow>,
                           data: BgData, penalizer: real, simulationSize: int, confidence: real,
                           testData: Option<BgData>, replicatePenalizer: real): (r: Result<bool, Error>)
    requires WellFormed(data)
    requires testData.Some? ==> WellFormed(testData.value)
    ensures BgFitChecks(data.frequency, data.T).Fail? ==> r == Err(BgFitChecks(data.frequency, data.T).error)
    ensures BgFitChecks(data.frequency, data.T).Pass? && testData.Some? && testData.value.N.None? ==>
              r == Err(MissingKey("N"))
    ensures r.Ok? ==> 0.0 <= confidence <= 1.0
  {
    match BgFitChecks(data.frequency, data.T)
    case Fail(e) => Err(e)
    case Pass =>
      var fit := optimise(Rows(data.frequency, data.T), penalizer, data.N);
      var genT := GenT(data.T, data.N);
      match testData
      case None =>
        (match Simulated(k, optimise, sample, fit.alpha, fit.beta, genT, None, replicatePenalizer, simulationSize)
         case Err(e) => Err(e)
         case Ok(simulated) => Verdict(k, simulated, Finite(fit.objective), confidence))
      case Some(test) =>
        if test.N.None? then Err(MissingKey("N"))
        else
          var observed := BgNegLogLik(k, [fit.alpha, fit.beta], Rows(test.frequency, test.T), penalizer, test.N);
          var testTs := ReduceConcat([], test.T, test.N.value);
          match Simulated(k, optimise, sample, fit.alpha, fit.beta, genT, Some(testTs), replicatePenalizer, simulationSize)
          case Err(e) => Err(e)
          case Ok(simulated) => Verdict(k, simulated, observed, confidence)
  }

  /** The body of `goodness_of_test`, with the penalizer the replicates are generated with
      as a parameter. */
  method GoodnessOfTestUsing(k: Kernels, optimise: (seq<BgRow>, real, Option<seq<int>>) -> BgFitResult,
                             sample: (nat, seq<int>, real, real, nat) -> seq<CompressedRow>,
                             data: BgData, penalizer: real, simulationSize: int, confidence: real,
                             testData: Option<BgData>, replicatePenalizer: real) returns (r: Result<bool, Error>)
    requires WellFormed(data)
    requires testData.Some? ==> WellFormed(testData.value)
    ensures r == GoodnessOutcome(k, optimise, sample, data, penalizer, simulationSize, confidence, testData, replicatePenalizer)
  {
    var fitter := new BgFitter(penalizer);
    var outcome := fitter.Fit(optimise, data.frequency, data.T, data.N);
    if outcome.Fail? {
      return Err(outcome.error);
    }
    var (alpha, beta) := FittedAlphaBeta(fitter.state);
    var observed: Objective;
    var simulated: Result<seq<Objective>, Error>;
    if testData.None? {
      observed := Finite(fitter.negLogLik.value);
      simulated := GenerateNegLikelihoods(k, fitter, optimise, sample, None, replicatePenalizer, 100, simulationSize, true);
    } else {
      var test := testData.value;
      observed := BgNegLogLik(k, [alpha, beta], Rows(test.frequency, test.T), penalizer, test.N);
      if test.N.None? {
        return Err(MissingKey("N"));
      }
      var testTs := ReduceConcat([], test.T, test.N.value);
      simulated := GenerateNegLikelihoods(k, fitter, optimise, sample, Some(testTs), replicatePenalizer, 100, simulationSize, false);
    }
    if simulated.Err? {
      return Err(simulated.error);
    }
    r := Verdict(k, simulated.value, observed, confidence);
  }

  /** `goodness_of_test` as written: `generate_neg_likelihoods` is called without
      `penalizer_coef`, so the replicates use its default 0.1 whatever the fitter was
      given. */
  method GoodnessOfTestAsWritten(k: Kernels, optimise: (seq<BgRow>, real, Option<seq<int>>) -> BgFitResult,
                                 sample: (nat, seq<int>, real, real, nat) -> seq<CompressedRow>,
                                 data: BgData, penalizer: real, simulationSize: int, confidence: real,
                                 testData: Option<BgData>) returns (r: Result<bool, Error>)
    requires WellFormed(data)
    requires testData.Some? ==> WellFormed(testData.value)
    ensures r == GoodnessOutcome(k, optimise, sample, data, penalizer, simulationSize, confidence, testData, 0.1)
  {
    r := GoodnessOfTestUsing(k, optimise, sample, data, penalizer, simulationSize, confidence, testData, 0.1);
  }

  /** `goodness_of_test` with the penalizer forwarded to the replicates, so that the
      observed and the simulated objectives are computed alike. */
  method GoodnessOfTest(k: Kernels, optimise: (seq<BgRow>, real, Option<seq<int>>) -> BgFitResult,
                        sample: (nat, seq<int>, real, real, nat) -> seq<CompressedRow>,
                        data: BgData, penalizer: real, simulationSize: int, confidence: real,
                        testData: Option<BgData>) returns (r: Result<bool, Error>)
    requires WellFormed(data)
    requires testData.Some? ==> WellFormed(testData.value)
    ensures r == GoodnessOutcome(k, optimise, sample, data, penalizer, simulationSize, confidence, testData, penalizer)
  {
    r := GoodnessOfTestUsing(k, optimise, sample, data, penalizer, simulationSize, confidence, testData, penalizer);
  }

  /** The rows a generator hands back for a data set with counts. */
  function AsCompressed(d: BgData): (r: seq<CompressedRow>)
    requires WellFormed(d) && d.N.Some?
    ensures FrequencyColumn(r) == d.frequency && AgeColumn(r) == d.T && CountColumn(r) == d.N.value
  {
    seq(|d.T|, (i: int) requires 0 <= i < |d.T| => CompressedRow(d.frequency[i], d.T[i], d.N.value[i]))
  }

  /** With the penalizer forwarded, a fixed-parameter replicate whose batch is the test
      data itself reproduces the observed objective exactly. */
  lemma {:induction false} ForwardedReplicateMatchesObserved(
    k: Kernels, optimise: (seq<BgRow>, real, Option<seq<int>>) -> BgFitResult,
    sample: (nat, seq<int>, real, real, nat) -> seq<CompressedRow>,
    alpha: real, beta: real, ts: seq<int>, penalizer: real, test: BgData, i: nat)
    requires WellFormed(test) && test.N.Some?
    requires sample(i, ts, alpha, beta, 100) == AsCompressed(test)
    ensures Replicate(k, optimise, sample, alpha, beta, ts, penalizer, 100, false, i)
            == Ok(BgNegLogLik(k, [alpha, beta], Rows(test.frequency, test.T), penalizer, test.N))
  {
  }

  /** The objective depends on the penalizer through `penalizer * Σ log(params)`. */
  lemma {:induction false} PenalizerChangesObjective(k: Kernels, alpha: real, beta: real, rows: seq<BgRow>,
                                                     N: Option<seq<int>>, p: real, q: real)
    requires N.Some? ==> |N.value| == |rows|
    requires alpha > 0.0 && beta > 0.0
    requires SumLog(k, [alpha, beta]) != 0.0 && p != q
    ensures BgNegLogLik(k, [alpha, beta], rows, p, N) != BgNegLogLik(k, [alpha, beta], rows, q, N)
  {
    var s := SumLog(k, [alpha, beta]);
    ProductsDiffer(s, p, q);
  }

  lemma {:induction false} ProductsDiffer(s: real, p: real, q: real)
    requires s != 0.0 && p != q
    ensures p * s != q * s
  {
    assert (p - q) * s != 0.0;
    assert p * s - q * s == (p - q) * s;
  }

  /** As written, the same replicate is computed with penalizer 0.1: whenever the
      fitter's penalizer is another value and Σ log(params) is not zero, the replicate of
      the test data itself differs from the observed objective. */
  lemma {:induction false} AsWrittenReplicateMissesObserved(
    k: Kernels, optimise: (seq<BgRow>, real, Option<seq<int>>) -> BgFitResult,
    sample: (nat, seq<int>, real, real, nat) -> seq<CompressedRow>,
    alpha: real, beta: real, ts: seq<int>, penalizer: real, test: BgData, i: nat)
    requires WellFormed(test) && test.N.Some?
    requires sample(i, ts, alpha, beta, 100) == AsCompressed(test)
    requires alpha > 0.0 && beta > 0.0
    requires SumLog(k, [alpha, beta]) != 0.0 && penalizer != 0.1
    ensures Replicate(k, optimise, sample, alpha, beta, ts, 0.1, 100, false, i)
            != Ok(BgNegLogLik(k, [alpha, beta], Rows(test.frequency, test.T), penalizer, test.N))
  {
    PenalizerChangesObjective(k, alpha, beta, Rows(test.frequency, test.T), test.N, 0.1, penalizer);
  }
}
