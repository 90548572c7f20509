// The stateful side of the fitters in lifetimes/estimation.py: `BGFitter.fit`, which
// validates its input, calls the optimiser and stores `params_`, `data`,
// `_negative_log_likelihood_` and the ages of `generate_new_data`; and the
// `*_error(t, params_list)` methods of the BG/BB/BG fitter and its extension, which
// overwrite `params_` once per parameter vector and restore it at the end.

module Fitters {
  import opened Common
  import opened AgeExpansion
  import opened FittedParams
  import opened Likelihood
  import opened Derived

  // ---------------------------------------------------------------------------
  // BGFitter.fit
  // ---------------------------------------------------------------------------

  /** What the optimiser `_fit` hands back for a BG fit: the two parameters and the
      objective it reached. */
  datatype BgFitResult = BgFitResult(alpha: real, beta: real, objective: real)

  /** The rows of `DataFrame(vconcat[frequency, T])`. */
  function Rows(frequency: seq<int>, T: seq<int>): (r: seq<BgRow>)
    requires |frequency| == |T|
    ensures |r| == |T| && forall i :: 0 <= i < |T| ==> r[i] == BgRow(frequency[i], T[i])
  {
    seq(|T|, (i: int) requires 0 <= i < |T| => BgRow(frequency[i], T[i]))
  }

  predicate SomeFrequencyAboveAge(frequency: seq<int>, T: seq<int>)
    requires |frequency| == |T|
  {
    exists i :: 0 <= i < |T| && frequency[i] > T[i]
  }

  predicate SomeNegative(xs: seq<int>) {
    exists i :: 0 <= i < |xs| && xs[i] < 0
  }

  /** The three checks of `BGFitter.fit`, in their order. */
  function BgFitChecks(frequency: seq<int>, T: seq<int>): (r: Outcome<Error>)
    requires |frequency| == |T|
    ensures r == Fail(FrequencyAboveAge) <==> SomeFrequencyAboveAge(frequency, T)
    ensures r == Fail(NegativeFrequency) <==> !SomeFrequencyAboveAge(frequency, T) && SomeNegative(frequency)
    ensures r == Fail(NegativeAge) <==> !SomeFrequencyAboveAge(frequency, T) && !SomeNegative(frequency) && SomeNegative(T)
    ensures r == Pass <==> forall i :: 0 <= i < |T| ==> 0 <= frequency[i] <= T[i] && T[i] >= 0
  {
    if SomeFrequencyAboveAge(frequency, T) then Fail(FrequencyAboveAge)
    else if SomeNegative(frequency) then Fail(NegativeFrequency)
    else if SomeNegative(T) then Fail(NegativeAge)
    else Pass
  }

  /** The age check can never fire: once no frequency exceeds its age and none is
      negative, every age is at least its frequency, hence not negative. */
  lemma {:induction false} NegativeAgeCheckUnreachable(frequency: seq<int>, T: seq<int>)
    requires |frequency| == |T|
    ensures BgFitChecks(frequency, T) != Fail(NegativeAge)
  {
  }

  /** `gen_t`: the expansion of (T, N) for compressed data, T itself otherwise. */
  function GenT(T: seq<int>, N: Option<seq<int>>): (r: seq<int>)
    ensures N.None? ==> r == T
    ensures N.Some? ==> r == Expand(T, N.value)
  {
    match N
    case None => T
    case Some(w) =>
      ReduceIsExpand([], T, w);
      assert [] + Expand(T, w) == Expand(T, w);
      ReduceConcat([], T, w)
  }

  lemma {:induction false} BgNamesDistinct()
    ensures Distinct(["alpha", "beta"])
  {
    assert "alpha"[0] != "beta"[0];
  }

  class BgFitter {
    const penalizer: real
    /** `params_`. */
    var state: FitState
    /** `data`: the frequency and age columns. */
    var data: seq<BgRow>
    /** `_negative_log_likelihood_`, the objective reached by the last fit. */
    var negLogLik: Option<real>
    /** The default ages of `generate_new_data`; None while the attribute does not exist. */
    var genT: Option<seq<int>>
    /** How often the optimiser has been called. */
    ghost var optimiserCalls: nat

    /** A fitted model knows its two parameters, its objective and the ages of its
        generator; an unfitted one has none of them. */
    predicate Valid()
      reads this
    {
      && (state.Unfitted? <==> genT.None?)
      && (state.Unfitted? <==> negLogLik.None?)
      && (state.Fitted? ==> UnloadParams(state, ["alpha", "beta"]).Ok?)
    }

    constructor(penalizer: real)
      ensures this.penalizer == penalizer
      ensures state == Unfitted && data == [] && negLogLik == None && genT == None
      ensures optimiserCalls == 0
      ensures Valid()
    {
      this.penalizer := penalizer;
      state := Unfitted;
      data := [];
      negLogLik := None;
      genT := None;
      optimiserCalls := 0;
    }

    /** `BGFitter.fit(frequency, T, N=N)`. `optimise` is `_fit` with the BG objective. On a
        failed check nothing is assigned and the optimiser is not called. */
    method Fit(optimise: (seq<BgRow>, real, Option<seq<int>>) -> BgFitResult,
               frequency: seq<int>, T: seq<int>, N: Option<seq<int>>) returns (r: Outcome<Error>)
      requires |frequency| == |T|
      modifies this
      ensures r == BgFitChecks(frequency, T)
      ensures r.Pass? ==> Valid()
      ensures r.Fail? ==> state == old(state) && data == old(data) && negLogLik == old(negLogLik)
                          && genT == old(genT) && optimiserCalls == old(optimiserCalls)
      ensures r.Pass? ==>
        var res := optimise(Rows(frequency, T), penalizer, N);
        && state == Fitted(ZipParams(["alpha", "beta"], [res.alpha, res.beta]))
        && UnloadParams(state, ["alpha", "beta"]) == Ok([res.alpha, res.beta])
        && data == Rows(frequency, T)
        && negLogLik == Some(res.objective)
        && genT == Some(GenT(T, N))
        && optimiserCalls == old(optimiserCalls) + 1
    {
      r := BgFitChecks(frequency, T);
      if r.Fail? {
        return;
      }
      var gen := GenT(T, N);
      var res := optimise(Rows(frequency, T), penalizer, N);
      optimiserCalls := optimiserCalls + 1;
      state := Fitted(ZipParams(["alpha", "beta"], [res.alpha, res.beta]));
      BgNamesDistinct();
      UnloadAfterFit(["alpha", "beta"], [res.alpha, res.beta]);
      data := Rows(frequency, T);
      negLogLik := Some(res.objective);
      genT := Some(gen);
    }
  }

  // ---------------------------------------------------------------------------
  // params_list error methods of BGBBBGFitter and BGBBBGExtFitter
  // ---------------------------------------------------------------------------

  /** The names the error methods write into `params_`: six for BG/BB/BG, seven with c0
      for the extension. */
  function ParamNames(extended: bool): (r: seq<string>)
    ensures |r| == (if extended then 7 else 6)
  {
    ["alpha", "beta", "gamma", "delta", "epsilon", "zeta"] + (if extended then ["c0"] else [])
  }

  lemma {:induction false} ParamNamesDistinct(extended: bool)
    ensures Distinct(ParamNames(extended))
  {
    var names := ParamNames(extended);
    forall i, j | 0 <= i < j < |names|
      ensures names[i] != names[j]
    {
      assert names[i][0] != names[j][0];
    }
  }

  /** The model parameters read back from one entry of `params_list`. */
  function ToParams(extended: bool, e: seq<real>): ConversionParams
    requires |e| >= |ParamNames(extended)|
  {
    ConversionParams(e[0], e[1], e[2], e[3], e[4], e[5], if extended then e[6] else 0.0)
  }

  /** The quantity whose spread is measured: the conversion probability at t (the
      regularised one for the extension) or its sum over `range(t + 1)`. */
  function ConversionValue(k: Kernels, extended: bool, p: ConversionParams, t: int, within: bool): real {
    if extended then (if within then ExtConvertingWithin(k, p, t) else ExtRegularizedAt(k, p, t))
    else (if within then BgbbbgConvertingWithin(k, p, t) else BgbbbgConvertingAt(k, p, t))
  }

  /** The value computed for one entry of `params_list`. */
  function EntryValue(k: Kernels, extended: bool, e: seq<real>, t: int, within: bool): real
    requires |e| >= |ParamNames(extended)|
  {
    ConversionValue(k, extended, ToParams(extended, e), t, within)
  }

  /** Only the first |ParamNames(extended)| numbers of an entry reach the dictionary, and
      they are all the value depends on. */
  lemma {:induction false} EntryValuePrefix(k: Kernels, extended: bool, e: seq<real>, t: int, within: bool)
    requires |e| >= |ParamNames(extended)|
    ensures EntryValue(k, extended, e[..|ParamNames(extended)|], t, within) == EntryValue(k, extended, e, t, within)
  {
    assert ToParams(extended, e[..|ParamNames(extended)|]) == ToParams(extended, e);
  }

  predicate AllLongEnough(list: seq<seq<real>>, count: nat) {
    LongBefore(list, count, |list|)
  }

  /** Every entry before index i has at least count numbers. */
  predicate LongBefore(list: seq<seq<real>>, count: nat, i: nat)
    requires i <= |list|
  {
    forall m :: 0 <= m < i ==> |list[m]| >= count
  }

  lemma {:induction false} LongBeforeStep(list: seq<seq<real>>, count: nat, i: nat)
    requires i < |list| && LongBefore(list, count, i) && |list[i]| >= count
    ensures LongBefore(list, count, i + 1)
  {
  }

  /** The index of the first entry too short to fill the parameter dictionary. */
  function FirstShort(list: seq<seq<real>>, count: nat): (m: nat)
    requires !AllLongEnough(list, count)
    ensures m < |list| && |list[m]| < count && LongBefore(list, count, m)
  {
    if |list[0]| < count then 0
    else
      var m := FirstShort(list[1..], count);
      assert forall j :: 1 <= j < m + 1 ==> list[j] == list[1..][j - 1];
      m + 1
  }

  /** The first short entry found by a scan whose earlier entries were all long enough. */
  lemma {:induction false} FirstShortAt(list: seq<seq<real>>, count: nat, i: nat)
    requires i < |list| && LongBefore(list, count, i) && |list[i]| < count
    ensures !AllLongEnough(list, count) && FirstShort(list, count) == i
  {
  }

  /** The values collected for every entry of the list. */
  function ConversionValues(k: Kernels, extended: bool, t: int, list: seq<seq<real>>, within: bool): (r: seq<real>)
    requires AllLongEnough(list, |ParamNames(extended)|)
    ensures |r| == |list|
  {
    seq(|list|, (m: int) requires 0 <= m < |list| => EntryValue(k, extended, list[m], t, within))
  }

  /** A list holding, entry by entry, the value of each entry is the collected list. */
  lemma {:induction false} ConversionValuesOf(k: Kernels, extended: bool, t: int, list: seq<seq<real>>, within: bool,
                                              collected: seq<real>)
    requires AllLongEnough(list, |ParamNames(extended)|)
    requires |collected| == |list|
    requires forall m :: 0 <= m < |list| ==> collected[m] == EntryValue(k, extended, list[m], t, within)
    ensures collected == ConversionValues(k, extended, t, list, within)
  {
  }

  /** The extension replaces a NaN or larger-than-one spread by 1. */
  function ClampSpread(extended: bool, f: Float): (r: Float)
    ensures extended ==> r.Num? && r.v <= 1.0
    ensures extended && f.Num? && f.v <= 1.0 ==> r == f
    ensures !extended ==> r == f
  {
    if extended && (f.NaN? || f.v > 1.0) then Num(1.0) else f
  }

  /** The result of an error method called on a fitted model: the IndexError of the first
      short entry, or the (clamped) standard deviation of the collected values. */
  function ConversionError(k: Kernels, extended: bool, t: int, list: seq<seq<real>>, within: bool): (r: Result<Float, Error>)
    ensures r.Err? <==> !AllLongEnough(list, |ParamNames(extended)|)
    ensures r.Err? ==> r.error == ShortParameterVector
  {
    if !AllLongEnough(list, |ParamNames(extended)|) then Err(ShortParameterVector)
    else Ok(ClampSpread(extended, StdOf(k, ConversionValues(k, extended, t, list, within))))
  }

  /** The extension's error is always a number in (-inf, 1]; BG/BB/BG reports NaN for an
      empty list. */
  lemma {:induction false} ConversionErrorRange(k: Kernels, extended: bool, t: int, list: seq<seq<real>>, within: bool)
    ensures extended && ConversionError(k, extended, t, list, within).Ok? ==>
              ConversionError(k, extended, t, list, within).value.Num? &&
              ConversionError(k, extended, t, list, within).value.v <= 1.0
    ensures extended && |list| == 0 ==> ConversionError(k, extended, t, list, within) == Ok(Num(1.0))
    ensures !extended && |list| == 0 ==> ConversionError(k, extended, t, list, within) == Ok(NaN)
  {
  }

  /** A BG/BB/BG fitter (`extended` false) or a BG/BB/BG extension fitter (`extended`
      true); only the parameter dictionary matters to the error methods. */
  class ConversionFitter {
    const extended: bool
    /** `params_`. */
    var state: FitState

    constructor(extended: bool, state: FitState)
      ensures this.extended == extended && this.state == state
    {
      this.extended := extended;
      this.state := state;
    }

    /** The dictionary the loop leaves in `params_` once it has written the first m
        entries: untouched before the first pass, a fitted dictionary afterwards. */
    function WrittenState(initial: FitState, list: seq<seq<real>>, m: nat): (r: FitState)
      requires m <= |list| && LongBefore(list, |ParamNames(extended)|, m)
      ensures m == 0 ==> r == initial
      ensures m > 0 ==> r.Fitted?
    {
      if m == 0 then initial
      else Fitted(ZipParams(ParamNames(extended), list[m - 1][..|ParamNames(extended)|]))
    }

    /** After m > 0 passes `_unload_params` reads back the leading values of entry m - 1. */
    lemma {:induction false} WrittenStateReadsBack(initial: FitState, list: seq<seq<real>>, m: nat)
      requires 0 < m <= |list| && LongBefore(list, |ParamNames(extended)|, m)
      ensures UnloadParams(WrittenState(initial, list, m), ParamNames(extended)) ==
              Ok(list[m - 1][..|ParamNames(extended)|])
    {
      var names := ParamNames(extended);
      ParamNamesDistinct(extended);
      UnloadAfterFit(names, list[m - 1][..|names|]);
    }

    /** One pass of the loop: the entry becomes `params_`, and the value is computed from
        the parameters unloaded from `params_`. */
    method WriteEntry(k: Kernels, t: int, entry: seq<real>, within: bool) returns (value: real)
      requires |entry| >= |ParamNames(extended)|
      modifies this
      ensures state == Fitted(ZipParams(ParamNames(extended), entry[..|ParamNames(extended)|]))
      ensures value == EntryValue(k, extended, entry, t, within)
    {
      var names := ParamNames(extended);
      state := Fitted(ZipParams(names, entry[..|names|]));
      ParamNamesDistinct(extended);
      UnloadAfterFit(names, entry[..|names|]);
      var unloaded := UnloadParams(state, names);
      value := EntryValue(k, extended, unloaded.value, t, within);
      EntryValuePrefix(k, extended, entry, t, within);
    }

    /** The loop of the error methods: every entry is written into `params_` and the value
        is computed from `params_` as unloaded; a short entry stops the loop. */
    method CollectValues(k: Kernels, t: int, list: seq<seq<real>>, within: bool) returns (values: Option<seq<real>>)
      modifies this
      ensures values.Some? <==> AllLongEnough(list, |ParamNames(extended)|)
      ensures values.Some? ==> values.value == ConversionValues(k, extended, t, list, within)
      ensures values.None? ==> state == WrittenState(old(state), list, FirstShort(list, |ParamNames(extended)|))
    {
      var initial := state;
      var names := ParamNames(extended);
      var count := |names|;
      var collected: seq<real> := [];
      var i := 0;
      while i < |list|
        invariant 0 <= i <= |list|
        invariant LongBefore(list, count, i)
        invariant |collected| == i
        invariant forall m :: 0 <= m < i ==> collected[m] == EntryValue(k, extended, list[m], t, within)
        invariant state == WrittenState(initial, list, i)
      {
        var entry := list[i];
        if |entry| < count {
          FirstShortAt(list, count, i);
          return None;
        }
        var value := WriteEntry(k, t, entry, within);
        LongBeforeStep(list, count, i);
        collected := collected + [value];
        i := i + 1;
      }
      ConversionValuesOf(k, extended, t, list, within, collected);
      values := Some(collected);
    }

    /** `expected_probability_of_converting_at_time_error(t, params_list)` (within false)
        and `expected_probability_of_converting_within_time_error(t, params_list)` (within
        true). On an unfitted model `params_.copy()` fails first. A short entry aborts the
        loop and leaves in `params_` the dictionary of the entry before it; otherwise
        `params_` is restored and the spread of the values is returned. */
    method ConversionErrorOf(k: Kernels, t: int, list: seq<seq<real>>, within: bool) returns (r: Result<Float, Error>)
      modifies this
      ensures old(state).Unfitted? ==> r == Err(NoCopyOnNone) && state == old(state)
      ensures old(state).Fitted? ==> r == ConversionError(k, extended, t, list, within)
      ensures r.Ok? ==> state == old(state)
      ensures old(state).Fitted? && r.Err? ==>
        state == WrittenState(old(state), list, FirstShort(list, |ParamNames(extended)|))
    {
      if state.Unfitted? {
        return Err(NoCopyOnNone);
      }
      var initial := state;
      var values := CollectValues(k, t, list, within);
      if values.None? {
        return Err(ShortParameterVector);
      }
      var spread := StdOf(k, values.value);
      state := initial;
      r := Ok(ClampSpread(extended, spread));
    }
  }
}
