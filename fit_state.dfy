// The fitted state of a fitter, `params_`, and `BaseFitter._unload_params`
// (lifetimes/estimation.py:21-37). `params_ = None` is a class attribute, so
// `hasattr(self, 'params_')` holds on every instance and the "Model has not been fit
// yet" guard never fires: an unfitted model fails later, when `None` is indexed.

module FittedParams {
  import opened Common

  datatype FitState = Unfitted | Fitted(params: map<string, real>)

  /** `[self.params_[x] for x in names]` for a fitted model: the values in the order of
      the names, or the KeyError of the first name that is missing. */
  function Lookup(params: map<string, real>, names: seq<string>): (r: Result<seq<real>, Error>)
    ensures r.Ok? <==> forall i :: 0 <= i < |names| ==> names[i] in params
    ensures r.Ok? ==> |r.value| == |names| && forall i :: 0 <= i < |names| ==> r.value[i] == params[names[i]]
    ensures r.Err? ==> exists i :: 0 <= i < |names| && names[i] !in params && r.error == MissingKey(names[i])
  {
    if |names| == 0 then Ok([])
    else if names[0] !in params then Err(MissingKey(names[0]))
    else
      match Lookup(params, names[1..])
      case Ok(rest) => Ok([params[names[0]]] + rest)
      case Err(e) => Err(e)
  }

  /** `_unload_params` as written: on an unfitted model the comprehension indexes `None`
      (a TypeError) as soon as one name is asked for, and yields `[]` for no names. */
  function UnloadParamsAsWritten(s: FitState, names: seq<string>): (r: Result<seq<real>, Error>)
    ensures s.Unfitted? ==> r == (if |names| == 0 then Ok([]) else Err(NotSubscriptable))
    ensures s.Fitted? ==> r == Lookup(s.params, names)
  {
    match s
    case Unfitted => if |names| == 0 then Ok([]) else Err(NotSubscriptable)
    case Fitted(params) => Lookup(params, names)
  }

  /** `_unload_params` with the guard the method means to have: an unfitted model reports
      that it has not been fit yet, whatever the names. */
  function UnloadParams(s: FitState, names: seq<string>): (r: Result<seq<real>, Error>)
    ensures s.Unfitted? ==> r == Err(NotFitted)
    ensures s.Fitted? ==> r == UnloadParamsAsWritten(s, names)
  {
    match s
    case Unfitted => Err(NotFitted)
    case Fitted(params) => Lookup(params, names)
  }

  /** The written guard is dead: no call on an unfitted model ends in the "not fit yet"
      error, while the corrected guard reports exactly that. */
  lemma {:induction false} NotFittedGuardUnreachable(names: seq<string>)
    ensures UnloadParamsAsWritten(Unfitted, names) != Err(NotFitted)
    ensures UnloadParams(Unfitted, names) == Err(NotFitted)
  {
  }

  /** An unfitted model asked for no names hands back an empty list instead of failing. */
  lemma {:induction false} NotFittedEmptyUnload()
    ensures UnloadParamsAsWritten(Unfitted, []) == Ok([])
  {
  }

  /** `OrderedDict(zip(names, values))`: the dictionary a `fit` stores as `params_`. */
  function ZipParams(names: seq<string>, values: seq<real>): (m: map<string, real>)
    requires |names| == |values|
    ensures m.Keys == set i | 0 <= i < |names| :: names[i]
    decreases |names|
  {
    if |names| == 0 then map[]
    else ZipParams(names[..|names| - 1], values[..|values| - 1])[names[|names| - 1] := values[|values| - 1]]
  }

  predicate Distinct(names: seq<string>) {
    forall i, j :: 0 <= i < j < |names| ==> names[i] != names[j]
  }

  lemma {:induction false} ZipParamsAt(names: seq<string>, values: seq<real>, i: nat)
    requires |names| == |values| && Distinct(names)
    requires i < |names|
    ensures names[i] in ZipParams(names, values)
    ensures ZipParams(names, values)[names[i]] == values[i]
    decreases |names|
  {
    var n := |names| - 1;
    if i < n {
      ZipParamsAt(names[..n], values[..n], i);
      assert names[..n][i] == names[i];
      assert values[..n][i] == values[i];
    }
  }

  /** Unloading the names a fit stored returns the fitted values, in order. */
  lemma {:induction false} UnloadAfterFit(names: seq<string>, values: seq<real>)
    requires |names| == |values| && Distinct(names)
    ensures UnloadParams(Fitted(ZipParams(names, values)), names) == Ok(values)
  {
    var m := ZipParams(names, values);
    forall i | 0 <= i < |names|
      ensures names[i] in m && m[names[i]] == values[i]
    {
      ZipParamsAt(names, values, i);
    }
    var r := Lookup(m, names);
    assert r.Ok?;
    assert r.value == values;
  }
}
