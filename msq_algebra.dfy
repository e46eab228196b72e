/**
 * The closed-form M^2 algebra of `MsqFitter` (src/nanosquared/fitting/fitter.py):
 * the value and uncertainty of M^2 in each fitting mode, and the ISO seed
 * that `estimateInitialGuesses` derives from a mode-1 fit.
 *
 * numpy carries on with `inf` or `nan` after a division by zero or the square
 * root of a negative number; the model reports those outcomes as `NonFiniteMsq`.
 */
module MsqAlgebra {
  import opened RealMath
  import opened FitFunctions

  /** The three fitted parameters of every model, `beta = [p0, p1, p2]`. */
  datatype Params = Params(p0: real, p1: real, p2: real)
  {
    function AsSeq(): (s: seq<real>)
      ensures |s| == 3 && s[0] == p0 && s[1] == p1 && s[2] == p2
    {
      [p0, p1, p2]
    }
  }

  /** `[m_squared, m_squared_err]`, or a value numpy would make `inf`/`nan`. */
  datatype MsqValue = MsqValue(msq: real, err: real) | NonFiniteMsq

  /**
   * Mode 0 fits `p = M^2 lambda`: `M^2 = b2 / lambda` with the relative errors
   * of `b2` and `lambda` added in quadrature.
   */
  function Mode0Msq(m: Oracle, beta2: real, sd2: real, wv: real, dwv: real): (r: MsqValue)
    ensures r.MsqValue? <==> wv != 0.0 && beta2 != 0.0
    ensures r.MsqValue? ==> r.msq * wv == beta2
  {
    if wv == 0.0 || beta2 == 0.0 then NonFiniteMsq
    else
      var msq := beta2 / wv;
      MsqValue(msq, msq * m.sqrt(Sq(sd2 / beta2) + Sq(dwv / wv)))
  }

  /** Fitting `p = M^2 lambda` and reading mode 0 gives back `M^2`. */
  lemma Mode0RecoversQuality(m: Oracle, msq: real, sd2: real, wv: real, dwv: real)
    requires wv != 0.0 && msq != 0.0
    ensures Mode0Msq(m, msq * wv, sd2, wv, dwv) == MsqValue(msq, Mode0Msq(m, msq * wv, sd2, wv, dwv).err)
  {
    assert msq * wv != 0.0;
  }

  lemma SignedQuotient(beta2: real, sd2: real, wv: real, s: real)
    requires wv != 0.0 && beta2 != 0.0 && s == AbsR(sd2 / beta2)
    ensures (beta2 / wv) * s * wv == (if beta2 > 0.0 then AbsR(sd2) else -AbsR(sd2))
  {
    assert (beta2 / wv) * wv == beta2;
    if beta2 > 0.0 {
      AbsProduct(sd2 / beta2, beta2);
      assert (sd2 / beta2) * beta2 == sd2;
    } else {
      AbsProduct(sd2 / beta2, -beta2);
      assert (sd2 / beta2) * (-beta2) == -sd2;
      assert AbsR(-sd2) == AbsR(sd2);
    }
  }

  /**
   * Without a wavelength error the mode-0 error is `|sd(b2)| / lambda`, carrying
   * the sign of `b2`: a negative fitted `b2` yields a negative error.
   */
  lemma Mode0ErrorWithExactWavelength(m: Oracle, beta2: real, sd2: real, wv: real)
    requires m.Valid() && wv != 0.0 && beta2 != 0.0
    ensures Mode0Msq(m, beta2, sd2, wv, 0.0).err * wv == (if beta2 > 0.0 then AbsR(sd2) else -AbsR(sd2))
  {
    assert Sq(0.0 / wv) == 0.0;
    SqrtOfSq(m, sd2 / beta2);
    assert Sq(sd2 / beta2) + Sq(0.0 / wv) == Sq(sd2 / beta2);
    SignedQuotient(beta2, sd2, wv, m.sqrt(Sq(sd2 / beta2)));
  }

  /** `4ac - b^2`, the quantity under the square roots of the ISO relations. */
  function IsoDisc(p: Params): real
  {
    4.0 * p.p0 * p.p2 - Sq(p.p1)
  }

  /** `M^2 = pi / (8 lambda) * sqrt(4ac - b^2)` as a function of the fit and the wavelength. */
  function IsoQualityAt(m: Oracle, p: Params, wv: real): real
    requires m.PiBounds() && wv != 0.0
  {
    m.pi / (8.0 * wv) * m.sqrt(IsoDisc(p))
  }

  /** The four partial derivatives the code writes out, with `F = sqrt(4ac - b^2)`. */
  datatype IsoGradient = IsoGradient(da: real, db: real, dc: real, dwv: real)

  function Mode2Gradient(m: Oracle, p: Params, wv: real, f: real): IsoGradient
    requires m.PiBounds() && wv != 0.0 && f != 0.0
  {
    IsoGradient(
      (m.pi * p.p2) / (4.0 * wv * f),
      -(m.pi * p.p1) / (8.0 * wv * f),
      (m.pi * p.p0) / (4.0 * wv * f),
      -(m.pi * f) / (8.0 * wv * wv))
  }

  /** The ISO uncertainty: the root-sum-square of the partials times the errors. */
  function Mode2Error(m: Oracle, g: IsoGradient, sd: Params, dwv: real): real
  {
    m.sqrt(Sq(g.da * sd.p0) + Sq(g.db * sd.p1) + Sq(g.dc * sd.p2) + Sq(g.dwv * dwv))
  }

  /**
   * Mode 2: `M^2` and its uncertainty from the ISO coefficients. numpy yields
   * `nan` for a negative discriminant and `inf` when it divides by a zero
   * wavelength or a zero root.
   */
  function Mode2Msq(m: Oracle, beta: Params, sd: Params, wv: real, dwv: real): (r: MsqValue)
    requires m.PiBounds()
    ensures r.MsqValue? <==> wv != 0.0 && 0.0 <= IsoDisc(beta) && m.sqrt(IsoDisc(beta)) != 0.0
    ensures r.MsqValue? ==> r.msq == IsoQualityAt(m, beta, wv)
  {
    var f := m.sqrt(IsoDisc(beta));
    if wv == 0.0 || IsoDisc(beta) < 0.0 || f == 0.0 then NonFiniteMsq
    else MsqValue(IsoQualityAt(m, beta, wv), Mode2Error(m, Mode2Gradient(m, beta, wv, f), sd, dwv))
  }

  lemma Mode2ErrorNonnegative(m: Oracle, g: IsoGradient, sd: Params, dwv: real)
    requires m.Valid()
    ensures 0.0 <= Mode2Error(m, g, sd, dwv)
    ensures Sq(Mode2Error(m, g, sd, dwv)) == Sq(g.da * sd.p0) + Sq(g.db * sd.p1) + Sq(g.dc * sd.p2) + Sq(g.dwv * dwv)
  {
    SqNonnegative(g.da * sd.p0);
    SqNonnegative(g.db * sd.p1);
    SqNonnegative(g.dc * sd.p2);
    SqNonnegative(g.dwv * dwv);
    SqrtAt(m, Sq(g.da * sd.p0) + Sq(g.db * sd.p1) + Sq(g.dc * sd.p2) + Sq(g.dwv * dwv));
  }

  /** `IsoCoefficients` as a parameter triple. */
  function IsoParams(m: Oracle, w0: real, z0: real, p: real): Params
    requires m.PiBounds() && w0 != 0.0
  {
    var abc := IsoCoefficients(m, w0, z0, p);
    Params(abc[0], abc[1], abc[2])
  }

  /** The ISO discriminant of a diverging beam is the square of a positive root. */
  lemma IsoParamsDisc(m: Oracle, w0: real, z0: real, p: real)
    requires m.PiBounds() && w0 != 0.0 && p != 0.0
    ensures var root := 8.0 * Sq(w0) * AbsR(Slope(m, w0, p));
            0.0 < root && IsoDisc(IsoParams(m, w0, z0, p)) == Sq(root)
  {
    IsoCoefficientSquares(m, w0, z0, p);
    SlopeNonzero(m, w0, p);
    SqPositive(w0);
    PositiveProduct(8.0 * Sq(w0), AbsR(Slope(m, w0, p)));
  }

  /** Fitting the ISO coefficients of a beam with `p = M^2 lambda` reads back `|M^2|`. */
  lemma Mode2RecoversQuality(m: Oracle, w0: real, z0: real, msq: real, wv: real, sd: Params, dwv: real)
    requires m.Valid() && w0 != 0.0 && msq != 0.0 && 0.0 < wv
    ensures var r := Mode2Msq(m, IsoParams(m, w0, z0, msq * wv), sd, wv, dwv);
            r.MsqValue? && r.msq == AbsR(msq)
  {
    var p := msq * wv;
    assert p != 0.0;
    var beta := IsoParams(m, w0, z0, p);
    var root := 8.0 * Sq(w0) * AbsR(Slope(m, w0, p));
    IsoParamsDisc(m, w0, z0, p);
    SqNonnegative(root);
    SqrtUnique(m, IsoDisc(beta), root);
    IsoQualityFromRoot(m, w0, p, wv, root);
    AbsQuotientOf(msq, wv);
  }

  lemma AbsQuotientOf(msq: real, wv: real)
    requires 0.0 < wv
    ensures AbsR(msq * wv) / wv == AbsR(msq)
  {
    AbsProduct(msq, wv);
    assert AbsR(msq) * wv / wv == AbsR(msq);
  }

  /** The secant of `k sqrt(d)` over a step `h` along which `d` changes by `q h`. */
  lemma SecantOfRoots(k: real, f: real, fh: real, d: real, dh: real, q: real, h: real, vh: real, v: real)
    requires h != 0.0 && 0.0 < f && 0.0 <= fh && Sq(f) == d && Sq(fh) == dh && dh - d == q * h
    requires vh == k * fh && v == k * f
    ensures 0.0 < fh + f
    ensures (vh - v) / h == k * q / (fh + f)
  {
    var s := fh + f;
    assert (fh - f) * s == q * h;
    assert (k * fh - k * f) * s == (k * q) * h;
    CrossDivide(k * fh - k * f, h, k * q, s);
  }

  lemma CrossDivide(x: real, h: real, y: real, s: real)
    requires h != 0.0 && s != 0.0 && x * s == y * h
    ensures x / h == y / s
  {
    assert x / h == (x * s) / (h * s);
    assert y / s == (y * h) / (s * h);
  }

  /** The oracle's roots of a positive and a non-negative discriminant. */
  lemma RootsAt(m: Oracle, d: real, dh: real)
    requires m.Valid() && 0.0 < d && 0.0 <= dh
    ensures 0.0 < m.sqrt(d) && Sq(m.sqrt(d)) == d
    ensures 0.0 <= m.sqrt(dh) && Sq(m.sqrt(dh)) == dh
  {
    SqrtAt(m, d);
    SqrtAt(m, dh);
  }

  lemma DiscStepA(p: Params, h: real)
    ensures IsoDisc(Params(p.p0 + h, p.p1, p.p2)) - IsoDisc(p) == (4.0 * p.p2) * h
  {
  }

  /** How fast `4ac - b^2` changes along a step `h` in `b`: `-(2b + h)`. */
  function BStep(b: real, h: real): real
  {
    -(2.0 * b + h)
  }

  lemma DiscStepB(p: Params, h: real)
    ensures IsoDisc(Params(p.p0, p.p1 + h, p.p2)) - IsoDisc(p) == BStep(p.p1, h) * h
  {
    assert Sq(p.p1 + h) == Sq(p.p1) + (2.0 * p.p1 + h) * h;
  }

  lemma DiscStepC(p: Params, h: real)
    ensures IsoDisc(Params(p.p0, p.p1, p.p2 + h)) - IsoDisc(p) == (4.0 * p.p0) * h
  {
  }

  lemma GradientAtZeroA(m: Oracle, p: Params, wv: real, f: real)
    requires m.PiBounds() && wv != 0.0 && 0.0 < f
    ensures m.pi / (8.0 * wv) * (4.0 * p.p2) / (f + f) == Mode2Gradient(m, p, wv, f).da
  {
  }

  lemma GradientAtZeroB(m: Oracle, p: Params, wv: real, f: real)
    requires m.PiBounds() && wv != 0.0 && 0.0 < f
    ensures m.pi / (8.0 * wv) * BStep(p.p1, 0.0) / (f + f) == Mode2Gradient(m, p, wv, f).db
  {
  }

  lemma GradientAtZeroC(m: Oracle, p: Params, wv: real, f: real)
    requires m.PiBounds() && wv != 0.0 && 0.0 < f
    ensures m.pi / (8.0 * wv) * (4.0 * p.p0) / (f + f) == Mode2Gradient(m, p, wv, f).dc
  {
  }

  /**
   * The difference quotient of `M^2` in `a`, for any step `h`, is
   * `pi / (8 lambda) * 4c / (F(a + h) + F(a))`; at `h = 0` that expression is
   * the code's `dM_da`.
   */
  lemma PartialA(m: Oracle, p: Params, wv: real, h: real)
    requires m.Valid() && wv != 0.0 && h != 0.0
    requires 0.0 < IsoDisc(p) && 0.0 <= IsoDisc(Params(p.p0 + h, p.p1, p.p2))
    ensures var f, fh := m.sqrt(IsoDisc(p)), m.sqrt(IsoDisc(Params(p.p0 + h, p.p1, p.p2)));
            && 0.0 < f && 0.0 < fh + f
            && (IsoQualityAt(m, Params(p.p0 + h, p.p1, p.p2), wv) - IsoQualityAt(m, p, wv)) / h
               == m.pi / (8.0 * wv) * (4.0 * p.p2) / (fh + f)
            && m.pi / (8.0 * wv) * (4.0 * p.p2) / (f + f) == Mode2Gradient(m, p, wv, f).da
  {
    var ph := Params(p.p0 + h, p.p1, p.p2);
    RootsAt(m, IsoDisc(p), IsoDisc(ph));
    PartialAFromRoots(m, p, wv, h, m.sqrt(IsoDisc(p)), m.sqrt(IsoDisc(ph)));
  }

  lemma PartialAFromRoots(m: Oracle, p: Params, wv: real, h: real, f: real, fh: real)
    requires m.PiBounds() && wv != 0.0 && h != 0.0
    requires 0.0 < f && Sq(f) == IsoDisc(p) && 0.0 <= fh && Sq(fh) == IsoDisc(Params(p.p0 + h, p.p1, p.p2))
    ensures 0.0 < fh + f
    ensures (m.pi / (8.0 * wv) * fh - m.pi / (8.0 * wv) * f) / h == m.pi / (8.0 * wv) * (4.0 * p.p2) / (fh + f)
    ensures m.pi / (8.0 * wv) * (4.0 * p.p2) / (f + f) == Mode2Gradient(m, p, wv, f).da
  {
    DiscStepA(p, h);
    SecantOfRoots(m.pi / (8.0 * wv), f, fh, IsoDisc(p), IsoDisc(Params(p.p0 + h, p.p1, p.p2)), 4.0 * p.p2, h,
                  m.pi / (8.0 * wv) * fh, m.pi / (8.0 * wv) * f);
    GradientAtZeroA(m, p, wv, f);
  }

  /** The same for `b`: the quotient is `pi / (8 lambda) * -(2b + h) / (F(b + h) + F(b))`. */
  lemma PartialB(m: Oracle, p: Params, wv: real, h: real)
    requires m.Valid() && wv != 0.0 && h != 0.0
    requires 0.0 < IsoDisc(p) && 0.0 <= IsoDisc(Params(p.p0, p.p1 + h, p.p2))
    ensures var f, fh := m.sqrt(IsoDisc(p)), m.sqrt(IsoDisc(Params(p.p0, p.p1 + h, p.p2)));
            && 0.0 < f && 0.0 < fh + f
            && (IsoQualityAt(m, Params(p.p0, p.p1 + h, p.p2), wv) - IsoQualityAt(m, p, wv)) / h
               == m.pi / (8.0 * wv) * BStep(p.p1, h) / (fh + f)
            && m.pi / (8.0 * wv) * BStep(p.p1, 0.0) / (f + f) == Mode2Gradient(m, p, wv, f).db
  {
    var ph := Params(p.p0, p.p1 + h, p.p2);
    RootsAt(m, IsoDisc(p), IsoDisc(ph));
    PartialBFromRoots(m, p, wv, h, m.sqrt(IsoDisc(p)), m.sqrt(IsoDisc(ph)));
  }

  lemma PartialBFromRoots(m: Oracle, p: Params, wv: real, h: real, f: real, fh: real)
    requires m.PiBounds() && wv != 0.0 && h != 0.0
    requires 0.0 < f && Sq(f) == IsoDisc(p) && 0.0 <= fh && Sq(fh) == IsoDisc(Params(p.p0, p.p1 + h, p.p2))
    ensures 0.0 < fh + f
    ensures (m.pi / (8.0 * wv) * fh - m.pi / (8.0 * wv) * f) / h == m.pi / (8.0 * wv) * BStep(p.p1, h) / (fh + f)
    ensures m.pi / (8.0 * wv) * BStep(p.p1, 0.0) / (f + f) == Mode2Gradient(m, p, wv, f).db
  {
    assert (m.pi / (8.0 * wv) * fh - m.pi / (8.0 * wv) * f) / h == m.pi / (8.0 * wv) * BStep(p.p1, h) / (fh + f) by {
      DiscStepB(p, h);
      SecantOfRoots(m.pi / (8.0 * wv), f, fh, IsoDisc(p), IsoDisc(Params(p.p0, p.p1 + h, p.p2)), BStep(p.p1, h), h,
                    m.pi / (8.0 * wv) * fh, m.pi / (8.0 * wv) * f);
    }
    assert m.pi / (8.0 * wv) * BStep(p.p1, 0.0) / (f + f) == Mode2Gradient(m, p, wv, f).db by {
      GradientAtZeroB(m, p, wv, f);
    }
  }

  /** The same for `c`: the quotient is `pi / (8 lambda) * 4a / (F(c + h) + F(c))`. */
  lemma PartialC(m: Oracle, p: Params, wv: real, h: real)
    requires m.Valid() && wv != 0.0 && h != 0.0
    requires 0.0 < IsoDisc(p) && 0.0 <= IsoDisc(Params(p.p0, p.p1, p.p2 + h))
    ensures var f, fh := m.sqrt(IsoDisc(p)), m.sqrt(IsoDisc(Params(p.p0, p.p1, p.p2 + h)));
            && 0.0 < f && 0.0 < fh + f
            && (IsoQualityAt(m, Params(p.p0, p.p1, p.p2 + h), wv) - IsoQualityAt(m, p, wv)) / h
               == m.pi / (8.0 * wv) * (4.0 * p.p0) / (fh + f)
            && m.pi / (8.0 * wv) * (4.0 * p.p0) / (f + f) == Mode2Gradient(m, p, wv, f).dc
  {
    var ph := Params(p.p0, p.p1, p.p2 + h);
    RootsAt(m, IsoDisc(p), IsoDisc(ph));
    PartialCFromRoots(m, p, wv, h, m.sqrt(IsoDisc(p)), m.sqrt(IsoDisc(ph)));
  }

  lemma PartialCFromRoots(m: Oracle, p: Params, wv: real, h: real, f: real, fh: real)
    requires m.PiBounds() && wv != 0.0 && h != 0.0
    requires 0.0 < f && Sq(f) == IsoDisc(p) && 0.0 <= fh && Sq(fh) == IsoDisc(Params(p.p0, p.p1, p.p2 + h))
    ensures 0.0 < fh + f
    ensures (m.pi / (8.0 * wv) * fh - m.pi / (8.0 * wv) * f) / h == m.pi / (8.0 * wv) * (4.0 * p.p0) / (fh + f)
    ensures m.pi / (8.0 * wv) * (4.0 * p.p0) / (f + f) == Mode2Gradient(m, p, wv, f).dc
  {
    DiscStepC(p, h);
    SecantOfRoots(m.pi / (8.0 * wv), f, fh, IsoDisc(p), IsoDisc(Params(p.p0, p.p1, p.p2 + h)), 4.0 * p.p0, h,
                  m.pi / (8.0 * wv) * fh, m.pi / (8.0 * wv) * f);
    GradientAtZeroC(m, p, wv, f);
  }

  /**
   * The same for the wavelength: the quotient is `-pi F / (8 lambda (lambda + h))`,
   * which is the code's `dM_dwv` at `h = 0`.
   */
  lemma PartialWavelength(m: Oracle, p: Params, wv: real, h: real)
    requires m.PiBounds() && wv != 0.0 && h != 0.0 && wv + h != 0.0
    requires m.sqrt(IsoDisc(p)) != 0.0
    ensures var f := m.sqrt(IsoDisc(p));
            && (IsoQualityAt(m, p, wv + h) - IsoQualityAt(m, p, wv)) / h == -(m.pi * f) / (8.0 * wv * (wv + h))
            && -(m.pi * f) / (8.0 * wv * (wv + 0.0)) == Mode2Gradient(m, p, wv, f).dwv
  {
    var f := m.sqrt(IsoDisc(p));
    WavelengthSecant(m.pi, f, wv, h);
  }

  lemma WavelengthSecant(pi: real, f: real, wv: real, h: real)
    requires wv != 0.0 && h != 0.0 && wv + h != 0.0
    ensures (pi / (8.0 * (wv + h)) * f - pi / (8.0 * wv) * f) / h == -(pi * f) / (8.0 * wv * (wv + h))
  {
    var u, v := 1.0 / (wv + h), 1.0 / wv;
    var k := pi * f / 8.0;
    assert pi / (8.0 * (wv + h)) * f == k * u;
    assert pi / (8.0 * wv) * f == k * v;
    ReciprocalStep(wv, h);
    assert (k * u - k * v) / h == -k * (u * v);
    ReciprocalProduct(pi * f, wv, h);
  }

  lemma ReciprocalStep(wv: real, h: real)
    requires wv != 0.0 && h != 0.0 && wv + h != 0.0
    ensures 1.0 / (wv + h) - 1.0 / wv == -h * (1.0 / (wv + h) * (1.0 / wv))
  {
    var u, v := 1.0 / (wv + h), 1.0 / wv;
    assert u * (wv + h) == 1.0;
    assert v * wv == 1.0;
    assert (u - v) * (wv * (wv + h)) == -h;
    assert (u * v) * (wv * (wv + h)) == 1.0;
  }

  lemma ReciprocalProduct(q: real, wv: real, h: real)
    requires wv != 0.0 && wv + h != 0.0
    ensures -(q / 8.0) * (1.0 / (wv + h) * (1.0 / wv)) == -q / (8.0 * wv * (wv + h))
  {
    var w := 1.0 / (8.0 * wv * (wv + h));
    assert w == (1.0 / (wv + h) * (1.0 / wv)) / 8.0;
    assert -q / (8.0 * wv * (wv + h)) == -q * w;
  }

  /**
   * The ISO seed as `estimateInitialGuesses` writes it, from a mode-1 fit
   * `[w0, z0, M^2]`: `c = M^4 (lambda / (pi w0))^2`, `a = w0^2 + c z0^2`, `b = -2 z0 c`.
   */
  function IsoSeedAsWritten(m: Oracle, w0: real, z0: real, msq: real, wv: real): Params
    requires m.PiBounds() && w0 != 0.0
  {
    PiTimesSqPositive(m, w0);
    SqPositive(w0);
    PositiveProduct(m.pi, AbsR(w0));
    assert m.pi * w0 != 0.0;
    var c := Sq(msq) * Sq(wv / (m.pi * w0));
    Params(Sq(w0) + c * Sq(z0), -2.0 * z0 * c, c)
  }

  /** The seed as intended: four times the written one, so that it matches the diameter form. */
  function IsoSeed(m: Oracle, w0: real, z0: real, msq: real, wv: real): (p: Params)
    requires m.PiBounds() && w0 != 0.0
    ensures p == IsoParams(m, w0, z0, msq * wv)
  {
    var s := IsoSeedAsWritten(m, w0, z0, msq, wv);
    SeedScale(m, w0, msq, wv);
    Params(4.0 * s.p0, 4.0 * s.p1, 4.0 * s.p2)
  }

  /** `4 M^4 (lambda / (pi w0))^2 = 4 w0^2 k^2` with `k = M^2 lambda / (pi w0^2)`. */
  lemma SeedScale(m: Oracle, w0: real, msq: real, wv: real)
    requires m.PiBounds() && w0 != 0.0
    ensures m.pi * w0 != 0.0
    ensures Sq(msq) * Sq(wv / (m.pi * w0)) == Sq(w0) * Sq(Slope(m, w0, msq * wv))
  {
    var k := Slope(m, w0, msq * wv);
    PiTimesSqPositive(m, w0);
    assert m.pi * w0 != 0.0;
    assert w0 * k * (m.pi * w0) == msq * wv;
    assert w0 * k == msq * (wv / (m.pi * w0));
    SqProduct(w0, k);
    SqProduct(msq, wv / (m.pi * w0));
  }

  /** The written seed: `4ac - b^2 = 4 c w0^2` and `-b / 2c = z0`. */
  lemma IsoSeedAsWrittenDiscriminant(m: Oracle, w0: real, z0: real, msq: real, wv: real)
    requires m.PiBounds() && w0 != 0.0 && msq != 0.0 && wv != 0.0
    ensures var s := IsoSeedAsWritten(m, w0, z0, msq, wv);
            && IsoDisc(s) == 4.0 * s.p2 * Sq(w0)
            && 0.0 < s.p2 && -s.p1 / (2.0 * s.p2) == z0
  {
    var s := IsoSeedAsWritten(m, w0, z0, msq, wv);
    SeedScale(m, w0, msq, wv);
    assert wv / (m.pi * w0) != 0.0;
    SqPositive(msq);
    SqPositive(wv / (m.pi * w0));
    PositiveProduct(Sq(msq), Sq(wv / (m.pi * w0)));
    SeedAlgebra(Sq(w0), z0, s.p2);
  }

  lemma SeedAlgebra(ww: real, z0: real, c: real)
    requires 0.0 < c
    ensures 4.0 * (ww + c * Sq(z0)) * c - Sq(-2.0 * z0 * c) == 4.0 * c * ww
    ensures -(-2.0 * z0 * c) / (2.0 * c) == z0
  {
  }

  /**
   * The written seed describes half the fitted beam: `iso_omega_z` on it gives
   * `|w(z)| / 2`, because `iso_omega_z` halves the diameter form.
   */
  lemma IsoSeedAsWrittenHalfRadius(m: Oracle, w0: real, z0: real, msq: real, wv: real, z: real)
    requires m.Valid() && w0 != 0.0
    ensures IsoOmegaZ(m, IsoSeedAsWritten(m, w0, z0, msq, wv).AsSeq(), z)
            == 0.5 * AbsR(OmegaZ(m, [w0, z0, msq * wv], z))
  {
    SeedQuadratics(m, w0, z0, msq, wv, z);
    IsoMatchesOmegaZ(m, w0, z0, msq * wv, z);
    QuarterRoot(m, IsoDiameterSq(IsoSeed(m, w0, z0, msq, wv).AsSeq(), z));
  }

  /** The written seed's quadratic is a quarter of the intended one, which is non-negative. */
  lemma SeedQuadratics(m: Oracle, w0: real, z0: real, msq: real, wv: real, z: real)
    requires m.PiBounds() && w0 != 0.0
    ensures IsoSeed(m, w0, z0, msq, wv).AsSeq() == IsoCoefficients(m, w0, z0, msq * wv)
    ensures 0.0 <= IsoDiameterSq(IsoSeed(m, w0, z0, msq, wv).AsSeq(), z)
    ensures IsoDiameterSq(IsoSeedAsWritten(m, w0, z0, msq, wv).AsSeq(), z) == IsoDiameterSq(IsoSeed(m, w0, z0, msq, wv).AsSeq(), z) / 4.0
  {
    var p := msq * wv;
    var s := IsoSeedAsWritten(m, w0, z0, msq, wv);
    var t := IsoSeed(m, w0, z0, msq, wv);
    assert t == Params(4.0 * s.p0, 4.0 * s.p1, 4.0 * s.p2);
    var abc := IsoCoefficients(m, w0, z0, p);
    assert t.AsSeq() == abc;
    IsoQuadratic(m, w0, z0, p, z);
    SqNonnegative(w0);
    QuadraticNonnegative(Sq(w0), Growth(m, w0, z0, p, z), IsoDiameterSq(t.AsSeq(), z));
  }

  lemma QuadraticNonnegative(ww: real, g: real, q: real)
    requires 0.0 <= ww && q == 4.0 * (ww * (1.0 + g)) && 0.0 <= g
    ensures 0.0 <= q
  {
    NonnegativeProduct(ww, 1.0 + g);
  }

  /** `sqrt(q / 4) = sqrt(q) / 2`. */
  lemma QuarterRoot(m: Oracle, q: real)
    requires m.Valid() && 0.0 <= q
    ensures m.sqrt(q / 4.0) == 0.5 * m.sqrt(q)
  {
    SqrtAt(m, q);
    QuarterSquare(m.sqrt(q), q);
    SqrtUnique(m, q / 4.0, 0.5 * m.sqrt(q));
  }

  lemma QuarterSquare(s: real, q: real)
    requires 0.0 <= s && Sq(s) == q
    ensures 0.0 <= 0.5 * s && Sq(0.5 * s) == q / 4.0
  {
  }

  /** The written seed's own M^2 reading is a quarter of the fitted `|M^2|`. */
  lemma IsoSeedAsWrittenQuality(m: Oracle, w0: real, z0: real, msq: real, wv: real)
    requires m.Valid() && w0 != 0.0 && msq != 0.0 && 0.0 < wv
    ensures IsoQualityAt(m, IsoSeedAsWritten(m, w0, z0, msq, wv), wv) == AbsR(msq) / 4.0
  {
    var s := IsoSeedAsWritten(m, w0, z0, msq, wv);
    var t := IsoSeed(m, w0, z0, msq, wv);
    Mode2RecoversQuality(m, w0, z0, msq, wv, t, 0.0);
    assert t == Params(4.0 * s.p0, 4.0 * s.p1, 4.0 * s.p2);
    assert IsoDisc(t) == 16.0 * IsoDisc(s);
    SixteenthRoot(m, IsoDisc(t));
    assert IsoDisc(t) / 16.0 == IsoDisc(s);
  }

  /** `sqrt(q / 16) = sqrt(q) / 4`. */
  lemma SixteenthRoot(m: Oracle, q: real)
    requires m.Valid() && 0.0 <= q
    ensures m.sqrt(q / 16.0) == 0.25 * m.sqrt(q)
  {
    SqrtAt(m, q);
    SixteenthSquare(m.sqrt(q), q);
    SqrtUnique(m, q / 16.0, 0.25 * m.sqrt(q));
  }

  lemma SixteenthSquare(s: real, q: real)
    requires 0.0 <= s && Sq(s) == q
    ensures 0.0 <= 0.25 * s && Sq(0.25 * s) == q / 16.0
  {
  }

  /** The intended seed is the fitted beam itself and reads back `|M^2|`. */
  lemma IsoSeedMatchesFit(m: Oracle, w0: real, z0: real, msq: real, wv: real, z: real)
    requires m.Valid() && w0 != 0.0 && msq != 0.0 && 0.0 < wv
    ensures IsoOmegaZ(m, IsoSeed(m, w0, z0, msq, wv).AsSeq(), z) == AbsR(OmegaZ(m, [w0, z0, msq * wv], z))
    ensures IsoQualityAt(m, IsoSeed(m, w0, z0, msq, wv), wv) == AbsR(msq)
  {
    IsoMatchesOmegaZ(m, w0, z0, msq * wv, z);
    Mode2RecoversQuality(m, w0, z0, msq, wv, IsoSeed(m, w0, z0, msq, wv), 0.0);
  }
}
