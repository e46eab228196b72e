/**
 * `MsqFitter` and its two solver back ends (src/nanosquared/fitting/fitter.py):
 * the mode check, the initial guesses, their estimate from the data, the fit
 * and the cached M^2 reading.
 *
 * The least-squares solvers (scipy's ODR and curve_fit) are a `Solver`
 * parameter: given the model to fit, the data and the initial guesses, it
 * returns the fitted parameters or the error the solver raises.
 */
module Fitter {
  import opened Errors
  import opened Helpers
  import opened RealMath
  import opened MsqAlgebra

  const M2LambdaMode: int := 0
  const M2Mode: int := 1
  const IsoMode: int := 2

  /**
   * The constructor's mode check: an `int` in 0..2 (a Python `bool` is an
   * `int`), otherwise `RuntimeError`, which includes the default `mode = 3`.
   */
  function CheckMode(v: PyValue): (r: Result<int>)
    ensures r.Ok? <==> (v.PInt? && 0 <= v.i <= 2) || v.PBool?
    ensures r.Ok? ==> 0 <= r.value <= 2
    ensures r.Ok? && v.PInt? ==> r.value == v.i
    ensures r.Ok? && v.PBool? ==> r.value == (if v.b then 1 else 0)
    ensures r.Err? ==> r.error == RuntimeError
  {
    match v
    case PInt(i) => if 0 <= i <= 2 then Ok(i) else Err(RuntimeError)
    case PBool(b) => Ok(if b then 1 else 0)
    case _ => Err(RuntimeError)
  }

  /** `i_params[mode]`: `[1, 1, lambda]` in mode 0, `[1, 1, 1]` otherwise. */
  function DefaultGuesses(mode: int, wv: real): (p: Params)
    requires 0 <= mode <= 2
    ensures p.p0 == 1.0 && p.p1 == 1.0
    ensures p.p2 == (if mode == M2LambdaMode then wv else 1.0)
  {
    if mode == M2LambdaMode then Params(1.0, 1.0, wv) else Params(1.0, 1.0, 1.0)
  }

  /** `np.argmin`: the first index of a minimum. */
  function ArgMin(s: seq<real>): (i: nat)
    requires |s| > 0
    ensures i < |s|
    ensures forall j :: 0 <= j < |s| ==> s[i] <= s[j]
    ensures forall j :: 0 <= j < i ==> s[i] < s[j]
  {
    if |s| == 1 then 0
    else
      var k := ArgMin(s[..|s| - 1]);
      if s[|s| - 1] < s[k] then |s| - 1 else k
  }

  /**
   * The guesses `estimateInitialGuesses` reads off the data in modes 0 and 1:
   * waist = the smallest radius, waist position = where it first occurs, and 1.
   * `np.argmin` of no data raises `ValueError`; a shorter `x` raises `IndexError`.
   */
  function EstimatedGuesses(xs: seq<real>, ys: seq<real>): (r: Result<Params>)
    ensures |ys| == 0 ==> r == Err(ValueError)
    ensures r.Ok? ==> exists i :: 0 <= i < |ys| && i < |xs| && r.value == Params(ys[i], xs[i], 1.0)
                                  && (forall j :: 0 <= j < |ys| ==> ys[i] <= ys[j])
                                  && (forall j :: 0 <= j < i ==> ys[i] < ys[j])
    ensures |ys| > 0 && r.Err? ==> r.error == IndexError && |xs| < |ys|
  {
    if |ys| == 0 then Err(ValueError)
    else
      var i := ArgMin(ys);
      if i < |xs| then Ok(Params(ys[i], xs[i], 1.0)) else Err(IndexError)
  }

  /** The estimate succeeds on any non-empty data with an `x` for every `y`. */
  lemma EstimateSucceeds(xs: seq<real>, ys: seq<real>)
    requires 0 < |ys| <= |xs|
    ensures EstimatedGuesses(xs, ys).Ok?
    ensures EstimatedGuesses(xs, ys).value.p2 == 1.0
  {
  }

  datatype Backend = ODR | OCF

  /** What a fit returns: parameters, their standard errors and ODRPACK's stop code. */
  datatype FitOutput = FitOutput(beta: Params, sdBeta: Params, info: int)

  /** A least-squares solver: model index into `funcs`, `x`, `y`, initial guesses. */
  type Solver = (int, seq<real>, seq<real>, Params) -> Result<FitOutput>

  /** `_calc_msq` for one fit output in one mode. */
  function CalcMsq(m: Oracle, mode: int, out: FitOutput, wv: real, dwv: real): (r: MsqValue)
    requires m.PiBounds() && 0 <= mode <= 2
    ensures mode == M2Mode ==> r == MsqValue(out.beta.p2, out.sdBeta.p2)
    ensures mode == M2LambdaMode ==> r == Mode0Msq(m, out.beta.p2, out.sdBeta.p2, wv, dwv)
    ensures mode == IsoMode ==> r == Mode2Msq(m, out.beta, out.sdBeta, wv, dwv)
  {
    if mode == M2Mode then MsqValue(out.beta.p2, out.sdBeta.p2)
    else if mode == M2LambdaMode then Mode0Msq(m, out.beta.p2, out.sdBeta.p2, wv, dwv)
    else Mode2Msq(m, out.beta, out.sdBeta, wv, dwv)
  }

  /**
   * The model a fit uses, as written: curve_fit uses `self.func`, which
   * `estimateInitialGuesses` reassigns, but ODR uses `self.model`, fixed to the
   * construction mode's function.
   */
  function ModelUsedAsWritten(backend: Backend, model: int, func: int): int
  {
    if backend == OCF then func else model
  }

  /** The model a fit is meant to use: the one `estimateInitialGuesses` selects. */
  function ModelUsed(backend: Backend, model: int, func: int): (k: int)
    ensures k == func
  {
    func
  }

  /**
   * An ODR fitter built for the ISO mode still fits the ISO model while
   * seeding, although the seeding has selected the mode-1 model.
   */
  lemma OdrSeedingFitsIsoModel()
    ensures ModelUsedAsWritten(ODR, IsoMode, M2Mode) == IsoMode
    ensures ModelUsed(ODR, IsoMode, M2Mode) == M2Mode
  {
  }

  /**
   * The outcome of `estimateInitialGuesses`: the data's guesses in modes 0
   * and 1; in the ISO mode, the ISO seed of a mode-1 fit from those guesses,
   * or the error raised on the way. A fitted waist of 0 stops the model,
   * where numpy would go on with infinite coefficients.
   */
  function Estimate(m: Oracle, mode: int, xs: seq<real>, ys: seq<real>, wv: real, solver: Solver): (r: Result<Params>)
    requires m.PiBounds()
    ensures mode != IsoMode ==> r == EstimatedGuesses(xs, ys)
    ensures EstimatedGuesses(xs, ys).Err? ==> r == EstimatedGuesses(xs, ys)
  {
    var e := EstimatedGuesses(xs, ys);
    if mode != IsoMode || e.Err? then e
    else
      var fitted := solver(M2Mode, xs, ys, e.value);
      if fitted.Err? then Err(fitted.error)
      else
        var b := fitted.value.beta;
        if b.p0 == 0.0 then Err(NonFinite) else Ok(IsoSeed(m, b.p0, b.p1, b.p2, wv))
  }

  /** With no data the estimate raises `ValueError` in every mode, so `estimateAndFit` runs no fit. */
  lemma EstimateOfNoData(m: Oracle, mode: int, xs: seq<real>, wv: real, solver: Solver)
    requires m.PiBounds()
    ensures Estimate(m, mode, xs, [], wv, solver) == Err(ValueError)
  {
  }

  class MsqFitter {
    const m: Oracle
    const backend: Backend
    const wavelength: real
    const wavelengthErr: real
    const xs: seq<real>
    const ys: seq<real>
    /** The mode the fitter was built with; ODR's model is `funcs[model]`. */
    const model: int
    var mode: int
    /** The index into `funcs` of the model the next fit uses. */
    var func: int
    var initialGuesses: Params
    var output: Option<FitOutput>
    var msqCalculated: bool
    var msq: Option<MsqValue>
    /** The mode the cached value was computed in. */
    ghost var cacheMode: int

    ghost predicate Valid()
      reads this
    {
      && m.PiBounds()
      && 0 <= mode <= 2 && 0 <= func <= 2 && 0 <= model <= 2 && 0 <= cacheMode <= 2
      && (msqCalculated ==> output.Some? && msq == Some(CalcMsq(m, cacheMode, output.value, wavelength, wavelengthErr)))
    }

    /** `__init__` once `CheckMode` has accepted the mode. */
    constructor (m: Oracle, backend: Backend, mode: int, wavelength: real, wavelengthErr: real, xs: seq<real>, ys: seq<real>)
      requires m.PiBounds() && 0 <= mode <= 2
      ensures Valid()
      ensures this.m == m && this.backend == backend && this.wavelength == wavelength && this.wavelengthErr == wavelengthErr
      ensures this.xs == xs && this.ys == ys
      ensures this.mode == mode && this.model == mode && this.func == mode
      ensures initialGuesses == DefaultGuesses(mode, wavelength)
      ensures output == None && !msqCalculated && msq == None
    {
      this.m := m;
      this.backend := backend;
      this.wavelength := wavelength;
      this.wavelengthErr := wavelengthErr;
      this.xs := xs;
      this.ys := ys;
      this.model := mode;
      this.mode := mode;
      this.func := mode;
      initialGuesses := DefaultGuesses(mode, wavelength);
      output := None;
      msqCalculated := false;
      msq := None;
      cacheMode := mode;
    }

    /** `setInitialGuesses`: takes effect in modes 0 and 1 only. */
    method SetInitialGuesses(w0: real, z0: real, msqGuess: real)
      requires Valid()
      modifies this
      ensures Valid()
      ensures initialGuesses == (if old(mode) == M2LambdaMode || old(mode) == M2Mode then Params(w0, z0, msqGuess) else old(initialGuesses))
      ensures mode == old(mode) && func == old(func) && output == old(output)
      ensures msqCalculated == old(msqCalculated) && msq == old(msq) && cacheMode == old(cacheMode)
    {
      if mode == M2LambdaMode || mode == M2Mode {
        initialGuesses := Params(w0, z0, msqGuess);
      }
    }

    /**
     * `fit`: forgets the cached M^2, then runs the solver from the current
     * guesses; the output is replaced only when the solver returns.
     */
    method Fit(solver: Solver) returns (r: Result<FitOutput>)
      requires Valid()
      modifies this
      ensures Valid()
      ensures r == solver(ModelUsed(backend, model, old(func)), xs, ys, old(initialGuesses))
      ensures output == (if r.Ok? then Some(r.value) else old(output))
      ensures !msqCalculated
      ensures mode == old(mode) && func == old(func) && initialGuesses == old(initialGuesses) && msq == old(msq)
    {
      msqCalculated := false;
      r := solver(ModelUsed(backend, model, func), xs, ys, initialGuesses);
      if r.Ok? {
        output := Some(r.value);
      }
    }

    /**
     * `_calc_msq`, the `m_squared` property of the curve_fit fitter:
     * `RuntimeWarning` before any fit; the first read computes and caches the
     * value, later reads return the cache until the next fit.
     */
    method MSquared() returns (r: Result<MsqValue>)
      requires Valid()
      modifies this
      ensures Valid()
      ensures old(output).None? ==> r == Err(RuntimeWarning) && msqCalculated == old(msqCalculated) && msq == old(msq)
      ensures old(output).Some? ==> msqCalculated && r == Ok(msq.value)
      ensures old(output).Some? && old(msqCalculated) ==> msq == old(msq)
      ensures old(output).Some? ==>
                r == Ok(CalcMsq(m, if old(msqCalculated) then old(cacheMode) else old(mode), old(output).value, wavelength, wavelengthErr))
      ensures mode == old(mode) && func == old(func) && output == old(output) && initialGuesses == old(initialGuesses)
    {
      if output.None? {
        return Err(RuntimeWarning);
      }
      if !msqCalculated {
        msq := Some(CalcMsq(m, mode, output.value, wavelength, wavelengthErr));
        cacheMode := mode;
        msqCalculated := true;
      }
      r := Ok(msq.value);
    }

    /**
     * The ODR fitter's `m_squared`: it reads `output.info` first, so before any
     * fit it fails with `AttributeError`; it warns when ODRPACK's stop code is
     * 4 or more, then reads `_calc_msq`.
     */
    method OdrMSquared() returns (r: Result<MsqValue>, dubious: bool)
      requires Valid()
      modifies this
      ensures Valid()
      ensures old(output).None? ==> r == Err(AttributeError) && !dubious && msqCalculated == old(msqCalculated) && msq == old(msq)
      ensures old(output).Some? ==> dubious == (old(output).value.info >= 4)
      ensures old(output).Some? ==> msqCalculated && r == Ok(msq.value)
      ensures old(output).Some? && old(msqCalculated) ==> msq == old(msq)
      ensures old(output).Some? ==>
                r == Ok(CalcMsq(m, if old(msqCalculated) then old(cacheMode) else old(mode), old(output).value, wavelength, wavelengthErr))
      ensures mode == old(mode) && func == old(func) && output == old(output) && initialGuesses == old(initialGuesses)
    {
      if output.None? {
        return Err(AttributeError), false;
      }
      dubious := output.value.info >= 4;
      r := MSquared();
    }

    /** The mode-0/1 branch of `estimateInitialGuesses`. */
    method EstimateFromData() returns (r: Result<Params>)
      requires Valid()
      modifies this
      ensures Valid()
      ensures r == EstimatedGuesses(xs, ys)
      ensures initialGuesses == (if r.Ok? && (old(mode) == M2LambdaMode || old(mode) == M2Mode) then r.value else old(initialGuesses))
      ensures mode == old(mode) && func == old(func) && output == old(output)
      ensures msqCalculated == old(msqCalculated) && msq == old(msq) && cacheMode == old(cacheMode)
    {
      r := EstimatedGuesses(xs, ys);
      if r.Ok? {
        SetInitialGuesses(r.value.p0, r.value.p1, r.value.p2);
      }
    }

    /**
     * `estimateInitialGuesses`. In modes 0 and 1 it sets the guesses from the
     * data. In the ISO mode it switches to mode 1, estimates, fits, seeds the
     * ISO coefficients from the fitted `[w0, z0, M^2]` and switches back; an
     * error on the way leaves the fitter in mode 1.
     */
    method EstimateInitialGuesses(solver: Solver) returns (r: Result<Params>)
      requires Valid()
      modifies this
      ensures Valid()
      ensures r == Estimate(m, old(mode), xs, ys, wavelength, solver)
      ensures old(mode) != IsoMode ==>
                r == EstimatedGuesses(xs, ys) && mode == old(mode) && func == old(func) && output == old(output)
                && msqCalculated == old(msqCalculated)
                && initialGuesses == (if r.Ok? then r.value else old(initialGuesses))
      ensures old(mode) == IsoMode && EstimatedGuesses(xs, ys).Err? ==>
                r == EstimatedGuesses(xs, ys) && mode == M2Mode && func == old(func) && output == old(output)
      ensures old(mode) == IsoMode && EstimatedGuesses(xs, ys).Ok? ==>
                var fitted := solver(M2Mode, xs, ys, EstimatedGuesses(xs, ys).value);
                && !msqCalculated
                && output == (if fitted.Ok? then Some(fitted.value) else old(output))
                && (fitted.Err? ==> r == Err(fitted.error) && mode == M2Mode && func == M2Mode
                                     && initialGuesses == EstimatedGuesses(xs, ys).value)
                && (fitted.Ok? && fitted.value.beta.p0 == 0.0 ==> r == Err(NonFinite) && mode == IsoMode && func == IsoMode)
                && (fitted.Ok? && fitted.value.beta.p0 != 0.0 ==>
                      var b := fitted.value.beta;
                      r == Ok(IsoSeed(m, b.p0, b.p1, b.p2, wavelength))
                      && initialGuesses == r.value && mode == IsoMode && func == IsoMode)
    {
      if mode != IsoMode {
        r := EstimateFromData();
        return;
      }
      mode := M2Mode;
      r := EstimateFromData();
      if r.Err? {
        return;
      }
      func := M2Mode;
      var fitted := Fit(solver);
      if fitted.Err? {
        return Err(fitted.error);
      }
      var b := fitted.value.beta;
      if b.p0 == 0.0 {
        mode := IsoMode;
        func := IsoMode;
        return Err(NonFinite);
      }
      initialGuesses := IsoSeed(m, b.p0, b.p1, b.p2, wavelength);
      r := Ok(initialGuesses);
      mode := IsoMode;
      func := IsoMode;
    }

    /**
     * `estimateAndFit`: the estimate, then a fit from its guesses with the
     * model it selected; an exception of the estimate propagates and no fit
     * follows.
     */
    method EstimateAndFit(solver: Solver) returns (r: Result<FitOutput>)
      requires Valid()
      modifies this
      ensures Valid()
      ensures var e := Estimate(m, old(mode), xs, ys, wavelength, solver);
              && (e.Err? ==> r == Err(e.error))
              && (e.Ok? ==> r == solver(if old(mode) == IsoMode then IsoMode else old(func), xs, ys, e.value)
                            && initialGuesses == e.value && !msqCalculated)
      ensures r.Ok? ==> output == Some(r.value)
    {
      ghost var e0 := Estimate(m, mode, xs, ys, wavelength, solver);
      ghost var f0 := if mode == IsoMode then IsoMode else func;
      var e := EstimateInitialGuesses(solver);
      assert e == e0;
      assert e.Ok? ==> func == f0 && initialGuesses == e.value;
      if e.Err? {
        return Err(e.error);
      }
      r := Fit(solver);
    }
  }

  /**
   * How `ensureNP` sees an error argument: a number, a numpy array, a Python
   * list, `np.array(list)` (a zero-dimensional object array holding the
   * builtin `list` type rather than any values), or anything else.
   */
  datatype ErrorSpec = ScalarError(v: real) | ArrayError(a: seq<real>) | ListError(l: seq<real>) | ListTypeArray | OtherError

  /** The argument is a numpy array, which `ensureNP` returns as it is. */
  predicate IsArray(v: ErrorSpec)
  {
    v.ArrayError? || v.ListTypeArray?
  }

  /**
   * `ensureNP(ref, varb)` as written: a number becomes an array shaped like
   * `ref` filled with it; a list becomes `np.array(list)`, the array of the
   * builtin type, so its values are lost; arrays and anything else pass
   * through unchanged.
   */
  function EnsureNP(ref: seq<real>, v: ErrorSpec): (r: ErrorSpec)
    ensures v.ScalarError? ==> r.ArrayError? && |r.a| == |ref| && forall i :: 0 <= i < |r.a| ==> r.a[i] == v.v
    ensures v.ListError? ==> r == ListTypeArray
    ensures !v.ScalarError? && !v.ListError? ==> r == v
    ensures IsArray(v) || v.OtherError? <==> r == v
  {
    match v
    case ScalarError(x) => ArrayError(seq(|ref|, _ => x))
    case ListError(_) => ListTypeArray
    case _ => v
  }

  /** Applying `ensureNP` twice changes nothing more: its result is an array or was passed through. */
  lemma EnsureNPIdempotent(ref: seq<real>, v: ErrorSpec)
    ensures EnsureNP(ref, EnsureNP(ref, v)) == EnsureNP(ref, v)
  {
  }

  /** A list of errors never reaches the solver as its values: `ensureNP` turns it into the array of the `list` type. */
  lemma EnsureNPLosesList(ref: seq<real>, l: seq<real>)
    ensures EnsureNP(ref, ListError(l)) != ArrayError(l)
    ensures EnsureNP(ref, ListError(l)) == EnsureNP(ref, ListError([]))
  {
  }

  /** `ensureNP` as intended: a list becomes the array of its values, `np.array(varb)`. */
  function EnsureNPIntended(ref: seq<real>, v: ErrorSpec): (r: ErrorSpec)
    ensures v.ScalarError? ==> r.ArrayError? && |r.a| == |ref| && forall i :: 0 <= i < |r.a| ==> r.a[i] == v.v
    ensures v.ListError? ==> r == ArrayError(v.l)
    ensures IsArray(v) || v.OtherError? <==> r == v
    ensures !v.OtherError? ==> IsArray(r)
  {
    match v
    case ScalarError(x) => ArrayError(seq(|ref|, _ => x))
    case ListError(l) => ArrayError(l)
    case _ => v
  }

  /** The intended `ensureNP` keeps a list's values and agrees with the written one on everything but lists. */
  lemma EnsureNPIntendedKeepsLists(ref: seq<real>, v: ErrorSpec)
    ensures EnsureNPIntended(ref, EnsureNPIntended(ref, v)) == EnsureNPIntended(ref, v)
    ensures v.ListError? ==> EnsureNPIntended(ref, v).a == v.l
    ensures !v.ListError? ==> EnsureNPIntended(ref, v) == EnsureNP(ref, v)
  {
  }
}
