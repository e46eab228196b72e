/**
 * The beam-radius models that the fitter fits to measured radii.
 *
 * A parameter vector is a `seq<real>` of length 3, as the source unpacks it.
 * The uncertain-number twins compute the same expressions on values with an
 * error attached, so one definition per formula models both.
 */
module FitFunctions {
  import opened RealMath

  /** An ODR model `fcn(beta, x)`, partial like the formulas it wraps. */
  type OdrFunction = (seq<real>, real) --> real
  /** A curve_fit model `fcn(x, *beta)`. */
  type OcfFunction = (real, seq<real>) --> real

  /** The same model with its two arguments swapped. */
  function ConvertODRtoOCF(f: OdrFunction): (g: OcfFunction)
    ensures forall x, beta :: f.requires(beta, x) ==> g.requires(x, beta) && g(x, beta) == f(beta, x)
  {
    (x: real, beta: seq<real>) requires f.requires(beta, x) => f(beta, x)
  }

  /** What the radius model needs: three parameters and a non-zero waist. */
  predicate RadiusParams(m: Oracle, params: seq<real>)
  {
    m.PiBounds() && |params| == 3 && params[0] != 0.0
  }

  lemma PiTimesSqPositive(m: Oracle, w0: real)
    requires m.PiBounds() && w0 != 0.0
    ensures 0.0 < m.pi * Sq(w0)
  {
    SqPositive(w0);
    PositiveProduct(m.pi, Sq(w0));
  }

  /** `p / (pi w0^2)`, the far-field slope of the radius when `w0 > 0`. */
  function Slope(m: Oracle, w0: real, p: real): (k: real)
    requires m.PiBounds() && w0 != 0.0
    ensures k * (m.pi * Sq(w0)) == p
  {
    PiTimesSqPositive(m, w0);
    p / (m.pi * Sq(w0))
  }

  /** The squared growth factor `(z - z0)^2 (p / (pi w0^2))^2`. */
  function Growth(m: Oracle, w0: real, z0: real, p: real, z: real): (g: real)
    requires m.PiBounds() && w0 != 0.0
    ensures 0.0 <= g
  {
    var k := Slope(m, w0, p);
    SqNonnegative(z - z0);
    SqNonnegative(k);
    NonnegativeProduct(Sq(z - z0), Sq(k));
    Sq(z - z0) * Sq(k)
  }

  /** `omega_z([w0, z0, p], z) = w0 * sqrt(1 + (z - z0)^2 (p / (pi w0^2))^2)`. */
  function OmegaZ(m: Oracle, params: seq<real>, z: real): real
    requires RadiusParams(m, params)
  {
    var w0, z0, p := params[0], params[1], params[2];
    w0 * m.sqrt(1.0 + Growth(m, w0, z0, p, z))
  }

  /** The radius satisfies the Gaussian-beam relation `w^2 = w0^2 (1 + growth)`. */
  lemma OmegaZSquared(m: Oracle, params: seq<real>, z: real)
    requires m.Valid() && RadiusParams(m, params)
    ensures Sq(OmegaZ(m, params, z)) == Sq(params[0]) * (1.0 + Growth(m, params[0], params[1], params[2], z))
  {
    var g := Growth(m, params[0], params[1], params[2], z);
    SqrtAt(m, 1.0 + g);
    SqProduct(params[0], m.sqrt(1.0 + g));
  }

  /** At the waist position the radius equals the waist. */
  lemma OmegaZAtWaist(m: Oracle, w0: real, z0: real, p: real)
    requires m.Valid() && RadiusParams(m, [w0, z0, p])
    ensures OmegaZ(m, [w0, z0, p], z0) == w0
  {
    assert Sq(z0 - z0) == 0.0;
    assert Growth(m, w0, z0, p, z0) == 0.0;
    SqrtOne(m);
  }

  lemma GrowthEven(m: Oracle, w0: real, z0: real, p: real, d: real)
    requires m.PiBounds() && w0 != 0.0
    ensures Growth(m, w0, z0, p, z0 + d) == Growth(m, w0, z0, p, z0 - d)
  {
    assert Sq(z0 + d - z0) == Sq(z0 - d - z0);
  }

  /** The radius is symmetric about the waist. */
  lemma OmegaZEven(m: Oracle, w0: real, z0: real, p: real, d: real)
    requires RadiusParams(m, [w0, z0, p])
    ensures OmegaZ(m, [w0, z0, p], z0 + d) == OmegaZ(m, [w0, z0, p], z0 - d)
  {
    GrowthEven(m, w0, z0, p, d);
  }

  /** The growth factor increases with the squared distance from the waist. */
  lemma GrowthMonotone(m: Oracle, w0: real, z0: real, p: real, z1: real, z2: real)
    requires m.PiBounds() && w0 != 0.0
    requires Sq(z1 - z0) <= Sq(z2 - z0)
    ensures Growth(m, w0, z0, p, z1) <= Growth(m, w0, z0, p, z2)
  {
    var k := Slope(m, w0, p);
    SqNonnegative(k);
    ScaleMonotone(Sq(k), Sq(z1 - z0), Sq(z2 - z0));
  }

  /** Moving farther from the waist never shrinks |radius|. */
  lemma OmegaZMonotone(m: Oracle, w0: real, z0: real, p: real, z1: real, z2: real)
    requires m.Valid() && RadiusParams(m, [w0, z0, p])
    requires Sq(z1 - z0) <= Sq(z2 - z0)
    ensures AbsR(OmegaZ(m, [w0, z0, p], z1)) <= AbsR(OmegaZ(m, [w0, z0, p], z2))
  {
    var g1, g2 := Growth(m, w0, z0, p, z1), Growth(m, w0, z0, p, z2);
    GrowthMonotone(m, w0, z0, p, z1, z2);
    SqrtMonotone(m, 1.0 + g1, 1.0 + g2);
    SqrtAt(m, 1.0 + g1);
    AbsScaled(w0, m.sqrt(1.0 + g1), m.sqrt(1.0 + g2));
  }

  lemma AbsScaled(w0: real, s1: real, s2: real)
    requires 0.0 <= s1 <= s2
    ensures AbsR(w0 * s1) <= AbsR(w0 * s2)
  {
    AbsProduct(w0, s1);
    AbsProduct(w0, s2);
    ScaleMonotone(AbsR(w0), s1, s2);
  }

  /** |radius| is never below |w0|. */
  lemma OmegaZAtLeastWaist(m: Oracle, w0: real, z0: real, p: real, z: real)
    requires m.Valid() && RadiusParams(m, [w0, z0, p])
    ensures AbsR(w0) <= AbsR(OmegaZ(m, [w0, z0, p], z))
  {
    assert Sq(z0 - z0) == 0.0;
    SqNonnegative(z - z0);
    OmegaZMonotone(m, w0, z0, p, z0, z);
    OmegaZAtWaist(m, w0, z0, p);
  }

  /** One Rayleigh length `pi w0^2 / |p|` from the waist the growth factor is exactly one. */
  lemma GrowthAtRayleigh(m: Oracle, w0: real, z0: real, p: real, z: real)
    requires m.PiBounds() && w0 != 0.0
    requires Sq(z - z0) * Sq(p) == Sq(m.pi * Sq(w0))
    ensures Growth(m, w0, z0, p, z) == 1.0
  {
    var k := Slope(m, w0, p);
    var q := m.pi * Sq(w0);
    PiTimesSqPositive(m, w0);
    SqPositive(q);
    SqProduct(k, q);
    CancelCommon(Sq(z - z0), Sq(k), Sq(q), Sq(p));
  }

  lemma CancelCommon(g: real, kk: real, qq: real, pp: real)
    requires pp == kk * qq && g * pp == qq && qq != 0.0
    ensures g * kk == 1.0
  {
    assert (g * kk) * qq == 1.0 * qq;
  }

  /** One Rayleigh length from the waist the squared radius doubles. */
  lemma OmegaZRayleigh(m: Oracle, w0: real, z0: real, p: real, z: real)
    requires m.Valid() && RadiusParams(m, [w0, z0, p])
    requires Sq(z - z0) * Sq(p) == Sq(m.pi * Sq(w0))
    ensures Sq(OmegaZ(m, [w0, z0, p], z)) == 2.0 * Sq(w0)
  {
    GrowthAtRayleigh(m, w0, z0, p, z);
    OmegaZSquared(m, [w0, z0, p], z);
  }

  /** `[w0, z0, M]` with the product `M * wavelength` in place of `M`. */
  function WithWavelength(params: seq<real>, wavelength: real): (q: seq<real>)
    requires |params| == 3
    ensures |q| == 3 && q[0] == params[0] && q[1] == params[1] && q[2] == params[2] * wavelength
  {
    [params[0], params[1], params[2] * wavelength]
  }

  /**
   * `omega_z_lambda(wavelength)`: a model in `[w0, z0, M]` with the wavelength
   * fixed, equal to `omega_z` with `p = M * wavelength`.
   */
  function OmegaZLambda(m: Oracle, wavelength: real): (f: OdrFunction)
    ensures forall params, z :: RadiusParams(m, params) ==>
              f.requires(params, z) && f(params, z) == OmegaZ(m, WithWavelength(params, wavelength), z)
  {
    (params: seq<real>, z: real) requires RadiusParams(m, params) =>
      OmegaZ(m, WithWavelength(params, wavelength), z)
  }

  /** `a + b z + c z^2`, the squared ISO beam diameter. */
  function IsoDiameterSq(params: seq<real>, z: real): real
    requires |params| == 3
  {
    params[0] + params[1] * z + params[2] * Sq(z)
  }

  /** `iso_omega_z([a, b, c], z) = 0.5 * sqrt(a + b z + c z^2)`, half the ISO diameter. */
  function IsoOmegaZ(m: Oracle, params: seq<real>, z: real): real
    requires |params| == 3
  {
    0.5 * m.sqrt(IsoDiameterSq(params, z))
  }

  /**
   * The diameter `2 * iso_omega_z` squared is the quadratic of ISO 11146-1:2021
   * section 9 equation (24), wherever the quadratic is non-negative.
   */
  lemma IsoDiameterSquared(m: Oracle, params: seq<real>, z: real)
    requires m.Valid() && |params| == 3
    requires 0.0 <= IsoDiameterSq(params, z)
    ensures 0.0 <= IsoOmegaZ(m, params, z)
    ensures Sq(2.0 * IsoOmegaZ(m, params, z)) == IsoDiameterSq(params, z)
  {
    SqrtAt(m, IsoDiameterSq(params, z));
  }

  /**
   * The ISO coefficients of a Gaussian beam with waist `w0` at `z0` and
   * `p = M^2 lambda`, chosen so that `(2 w(z))^2 = a + b z + c z^2`.
   */
  function IsoCoefficients(m: Oracle, w0: real, z0: real, p: real): (abc: seq<real>)
    requires m.PiBounds() && w0 != 0.0
    ensures |abc| == 3 && 0.0 <= abc[2]
  {
    var k := Slope(m, w0, p);
    SqNonnegative(w0);
    SqNonnegative(k);
    NonnegativeProduct(Sq(w0), Sq(k));
    var c := 4.0 * (Sq(w0) * Sq(k));
    [4.0 * Sq(w0) + c * Sq(z0), -2.0 * z0 * c, c]
  }

  lemma IsoQuadratic(m: Oracle, w0: real, z0: real, p: real, z: real)
    requires m.PiBounds() && w0 != 0.0
    ensures var abc := IsoCoefficients(m, w0, z0, p);
            IsoDiameterSq(abc, z) == 4.0 * (Sq(w0) * (1.0 + Growth(m, w0, z0, p, z)))
  {
    var k := Slope(m, w0, p);
    var c := 4.0 * (Sq(w0) * Sq(k));
    assert (4.0 * Sq(w0) + c * Sq(z0)) + (-2.0 * z0 * c) * z + c * Sq(z)
        == 4.0 * Sq(w0) + c * Sq(z - z0);
  }

  lemma DoubledAbs(w: real, t: real)
    requires Sq(w) == t
    ensures 0.0 <= 2.0 * AbsR(w) && Sq(2.0 * AbsR(w)) == 4.0 * t
  {
    SqOfAbs(w);
    SqProduct(2.0, AbsR(w));
  }

  /** The ISO model with those coefficients is the same beam as `omega_z`. */
  lemma IsoMatchesOmegaZ(m: Oracle, w0: real, z0: real, p: real, z: real)
    requires m.Valid() && RadiusParams(m, [w0, z0, p])
    ensures IsoOmegaZ(m, IsoCoefficients(m, w0, z0, p), z) == AbsR(OmegaZ(m, [w0, z0, p], z))
  {
    var abc := IsoCoefficients(m, w0, z0, p);
    var w := OmegaZ(m, [w0, z0, p], z);
    OmegaZSquared(m, [w0, z0, p], z);
    IsoQuadratic(m, w0, z0, p, z);
    DoubledAbs(w, Sq(w0) * (1.0 + Growth(m, w0, z0, p, z)));
    SqrtUnique(m, IsoDiameterSq(abc, z), 2.0 * AbsR(w));
  }

  /** The discriminant `4ac - b^2` of those coefficients, on plain reals. */
  lemma IsoDiscriminant(w0: real, z0: real, k: real)
    ensures var c := 4.0 * (Sq(w0) * Sq(k));
            var a, b := 4.0 * Sq(w0) + c * Sq(z0), -2.0 * z0 * c;
            4.0 * a * c - Sq(b) == 16.0 * Sq(w0) * c
            && 16.0 * Sq(w0) * c == Sq(8.0 * Sq(w0) * AbsR(k))
  {
    SqOfAbs(k);
    SqProduct(8.0 * Sq(w0), AbsR(k));
  }

  /** `z0 = -b / 2c` whenever the beam diverges at all. */
  lemma IsoWaistPosition(w0: real, z0: real, k: real)
    requires w0 != 0.0 && k != 0.0
    ensures var c := 4.0 * (Sq(w0) * Sq(k));
            0.0 < c && -(-2.0 * z0 * c) / (2.0 * c) == z0
  {
    SqPositive(w0);
    SqPositive(k);
    PositiveProduct(Sq(w0), Sq(k));
  }

  /** `(4ac - b^2) / 4c = 4 w0^2`, the squared waist diameter. */
  lemma IsoWaistDiameter(w0: real, z0: real, k: real)
    requires w0 != 0.0 && k != 0.0
    ensures var c := 4.0 * (Sq(w0) * Sq(k));
            var a, b := 4.0 * Sq(w0) + c * Sq(z0), -2.0 * z0 * c;
            0.0 < c && (4.0 * a * c - Sq(b)) / (4.0 * c) == Sq(2.0 * w0)
  {
    IsoWaistPosition(w0, z0, k);
    IsoDiscriminant(w0, z0, k);
  }

  /** `pi / (8 lambda) * 8 w0^2 |k| = |p| / lambda` once `k * pi w0^2 = p`. */
  lemma IsoQuality(pi: real, ww: real, ak: real, ap: real, lambda: real)
    requires 0.0 < lambda && ak * (pi * ww) == ap
    ensures pi / (8.0 * lambda) * (8.0 * ww * ak) == ap / lambda
  {
  }

  /** `8 w0^2 |k| / 2c = pi w0^2 / |p|`, the Rayleigh length. */
  lemma IsoRayleigh(pi: real, ww: real, ak: real, kk: real, ap: real)
    requires 0.0 < pi && 0.0 < ww && 0.0 < ak && kk == ak * ak && ap == ak * (pi * ww)
    ensures 0.0 < 2.0 * (4.0 * (ww * kk)) && 0.0 < ap
    ensures (8.0 * ww * ak) / (2.0 * (4.0 * (ww * kk))) == pi * ww / ap
  {
    PositiveProduct(ak, ak);
    PositiveProduct(ww, kk);
    PositiveProduct(pi, ww);
    PositiveProduct(ak, pi * ww);
    assert (8.0 * ww * ak) * ap == (pi * ww) * (2.0 * (4.0 * (ww * kk)));
  }

  lemma SlopeNonzero(m: Oracle, w0: real, p: real)
    requires m.PiBounds() && w0 != 0.0 && p != 0.0
    ensures Slope(m, w0, p) != 0.0
  {
  }

  /** `zR = sqrt(4ac - b^2) / 2c` once the root is known: `pi w0^2 / |p|`. */
  lemma IsoRayleighFromRoot(m: Oracle, w0: real, z0: real, p: real, sdisc: real)
    requires m.PiBounds() && w0 != 0.0 && p != 0.0
    requires sdisc == 8.0 * Sq(w0) * AbsR(Slope(m, w0, p))
    ensures var abc := IsoCoefficients(m, w0, z0, p);
            0.0 < abc[2] && sdisc / (2.0 * abc[2]) == m.pi * Sq(w0) / AbsR(p)
  {
    var k := Slope(m, w0, p);
    SlopeNonzero(m, w0, p);
    IsoWaistPosition(w0, z0, k);
    SqPositive(w0);
    PiTimesSqPositive(m, w0);
    AbsProduct(k, m.pi * Sq(w0));
    SqOfAbs(k);
    IsoRayleigh(m.pi, Sq(w0), AbsR(k), Sq(k), AbsR(p));
  }

  /** `M^2 = pi / (8 lambda) sqrt(4ac - b^2)` once the root is known: `|p| / lambda`. */
  lemma IsoQualityFromRoot(m: Oracle, w0: real, p: real, lambda: real, sdisc: real)
    requires m.PiBounds() && w0 != 0.0 && 0.0 < lambda
    requires sdisc == 8.0 * Sq(w0) * AbsR(Slope(m, w0, p))
    ensures m.pi / (8.0 * lambda) * sdisc == AbsR(p) / lambda
  {
    var k := Slope(m, w0, p);
    PiTimesSqPositive(m, w0);
    AbsProduct(k, m.pi * Sq(w0));
    IsoQuality(m.pi, Sq(w0), AbsR(k), AbsR(p), lambda);
  }

  /** The coefficients' discriminant and waist term, without square roots. */
  lemma IsoCoefficientSquares(m: Oracle, w0: real, z0: real, p: real)
    requires m.PiBounds() && w0 != 0.0 && p != 0.0
    ensures var abc := IsoCoefficients(m, w0, z0, p);
            && 0.0 < abc[2]
            && -abc[1] / (2.0 * abc[2]) == z0
            && 0.0 <= 8.0 * Sq(w0) * AbsR(Slope(m, w0, p))
            && 4.0 * abc[0] * abc[2] - Sq(abc[1]) == Sq(8.0 * Sq(w0) * AbsR(Slope(m, w0, p)))
            && (4.0 * abc[0] * abc[2] - Sq(abc[1])) / (4.0 * abc[2]) == Sq(2.0 * w0)
  {
    var k := Slope(m, w0, p);
    SlopeNonzero(m, w0, p);
    IsoWaistPosition(w0, z0, k);
    IsoDiscriminant(w0, z0, k);
    IsoWaistDiameter(w0, z0, k);
    SqNonnegative(w0);
    NonnegativeProduct(8.0 * Sq(w0), AbsR(k));
  }

  /** `sqrt(4ac - b^2) = 8 w0^2 |k|` and `0.5 sqrt((4ac - b^2) / 4c) = |w0|`. */
  lemma IsoRoots(m: Oracle, w0: real, z0: real, p: real)
    requires m.Valid() && w0 != 0.0 && p != 0.0
    ensures var abc := IsoCoefficients(m, w0, z0, p);
            var disc := 4.0 * abc[0] * abc[2] - Sq(abc[1]);
            && 0.0 < abc[2]
            && m.sqrt(disc) == 8.0 * Sq(w0) * AbsR(Slope(m, w0, p))
            && 0.5 * m.sqrt(disc / (4.0 * abc[2])) == AbsR(w0)
  {
    IsoCoefficientSquares(m, w0, z0, p);
    var abc := IsoCoefficients(m, w0, z0, p);
    var disc := 4.0 * abc[0] * abc[2] - Sq(abc[1]);
    var root := 8.0 * Sq(w0) * AbsR(Slope(m, w0, p));
    SqrtUnique(m, disc, root);
    SqrtOfSq(m, 2.0 * w0);
  }

  /**
   * The documented relations of `iso_omega_z` recover the beam from the
   * coefficients of `IsoCoefficients`: `z0 = -b / 2c`,
   * `w0 = 0.5 sqrt((4ac - b^2) / 4c)`, `zR = sqrt(4ac - b^2) / 2c` and
   * `M^2 = pi / (8 lambda) sqrt(4ac - b^2)` with `p = M^2 lambda`.
   */
  lemma IsoDocumentedRelations(m: Oracle, w0: real, z0: real, p: real, lambda: real)
    requires m.Valid() && w0 != 0.0 && p != 0.0 && 0.0 < lambda
    ensures var abc := IsoCoefficients(m, w0, z0, p);
            var disc := 4.0 * abc[0] * abc[2] - Sq(abc[1]);
            && 0.0 < abc[2]
            && -abc[1] / (2.0 * abc[2]) == z0
            && 0.5 * m.sqrt(disc / (4.0 * abc[2])) == AbsR(w0)
            && m.sqrt(disc) / (2.0 * abc[2]) == m.pi * Sq(w0) / AbsR(p)
            && m.pi / (8.0 * lambda) * m.sqrt(disc) == AbsR(p) / lambda
  {
    var abc := IsoCoefficients(m, w0, z0, p);
    var disc := 4.0 * abc[0] * abc[2] - Sq(abc[1]);
    IsoCoefficientSquares(m, w0, z0, p);
    IsoRoots(m, w0, z0, p);
    var root := 8.0 * Sq(w0) * AbsR(Slope(m, w0, p));
    IsoRayleighFromRoot(m, w0, z0, p, root);
    IsoQualityFromRoot(m, w0, p, lambda, root);
  }
}
