/**
 * The NanoScan enumerations (src/nanosquared/cameras/nanoscan_constants.py)
 * and their agreement with the vendor's type library, whose values are
 * listed in src/cameras/archive/nanoscan/nanoscan_genpy.py.
 */
module NanoScanConstants {
  import opened Errors

  /** `NsAxes`: the values double as column indices of an (x, y) reading. */
  datatype NsAxes = X | Y | BOTH

  function AxisValue(a: NsAxes): (v: nat)
    ensures v <= 2
    ensures a == X <==> v == 0
    ensures a == Y <==> v == 1
    ensures a == BOTH <==> v == 2
  {
    match a
    case X => 0
    case Y => 1
    case BOTH => 2
  }

  /** `NsAxes(v)`: `ValueError` for a value outside the enumeration. */
  function AxisOf(v: int): (r: Result<NsAxes>)
    ensures r.Ok? <==> 0 <= v <= 2
    ensures r.Ok? ==> AxisValue(r.value) == v
    ensures r.Err? ==> r.error == ValueError
  {
    if v == 0 then Ok(X) else if v == 1 then Ok(Y) else if v == 2 then Ok(BOTH) else Err(ValueError)
  }

  lemma AxisRoundTrip(a: NsAxes)
    ensures AxisOf(AxisValue(a)) == Ok(a)
  {
  }

  /** `SelectParameters`, in declaration order. */
  datatype SelectParameter =
    | BeamWidth13_5Clip | BeamWidthFwhmClip | BeamWidthUserClip1 | BeamWidthUserClip2
    | BeamWidthD4Sigma | BeamCentroidPos | BeamPeakPos | SepCentroid | SepPeak | BeamPeak
    | ProfileGaussFit | Ellipticity | Power | PowerTotal | Divergence
    | BeamWidthRatio13_5Clip | BeamWidthRatioFwhmClip | BeamWidthRatioUserClip1
    | BeamWidthRatioUserClip2 | BeamWidthRatioD4Sigma

  /** The position of a member in the declaration. */
  function Ordinal(p: SelectParameter): (k: nat)
    ensures k < 20
  {
    match p
    case BeamWidth13_5Clip => 0
    case BeamWidthFwhmClip => 1
    case BeamWidthUserClip1 => 2
    case BeamWidthUserClip2 => 3
    case BeamWidthD4Sigma => 4
    case BeamCentroidPos => 5
    case BeamPeakPos => 6
    case SepCentroid => 7
    case SepPeak => 8
    case BeamPeak => 9
    case ProfileGaussFit => 10
    case Ellipticity => 11
    case Power => 12
    case PowerTotal => 13
    case Divergence => 14
    case BeamWidthRatio13_5Clip => 15
    case BeamWidthRatioFwhmClip => 16
    case BeamWidthRatioUserClip1 => 17
    case BeamWidthRatioUserClip2 => 18
    case BeamWidthRatioD4Sigma => 19
  }

  /** The members in declaration order. */
  const Members: seq<SelectParameter> := [
    BeamWidth13_5Clip, BeamWidthFwhmClip, BeamWidthUserClip1, BeamWidthUserClip2,
    BeamWidthD4Sigma, BeamCentroidPos, BeamPeakPos, SepCentroid, SepPeak, BeamPeak,
    ProfileGaussFit, Ellipticity, Power, PowerTotal, Divergence,
    BeamWidthRatio13_5Clip, BeamWidthRatioFwhmClip, BeamWidthRatioUserClip1,
    BeamWidthRatioUserClip2, BeamWidthRatioD4Sigma]

  /** `Ordinal` is the position in the declaration, so distinct members have distinct ordinals. */
  lemma OrdinalIndexes(p: SelectParameter)
    ensures |Members| == 20 && Members[Ordinal(p)] == p
  {
  }

  function Pow2(k: nat): (v: nat)
    ensures 1 <= v
  {
    if k == 0 then 1 else 2 * Pow2(k - 1)
  }

  /** `IntFlag` with `auto()` numbers its members 1, 2, 4, ... in declaration order. */
  function FlagValue(p: SelectParameter): (v: nat)
    ensures v == Pow2(Ordinal(p))
  {
    Pow2(Ordinal(p))
  }

  /** The vendor's `NsAsParameterSelection` value of the corresponding constant. */
  function VendorParameterValue(p: SelectParameter): nat
  {
    match p
    case BeamWidth13_5Clip => 1         // NSAS_SELECT_PARAM_WIDTH_1
    case BeamWidthFwhmClip => 2         // NSAS_SELECT_PARAM_WIDTH_2
    case BeamWidthUserClip1 => 4        // NSAS_SELECT_PARAM_WIDTH_USER1
    case BeamWidthUserClip2 => 8        // NSAS_SELECT_PARAM_WIDTH_USER2
    case BeamWidthD4Sigma => 16         // NSAS_SELECT_PARAM_WIDTH_4SIGMA
    case BeamCentroidPos => 32          // NSAS_SELECT_PARAM_POS_CENTR
    case BeamPeakPos => 64              // NSAS_SELECT_PARAM_POS_PEAK
    case SepCentroid => 128             // NSAS_SELECT_PARAM_SEP_CENTR
    case SepPeak => 256                 // NSAS_SELECT_PARAM_SEP_PEAK
    case BeamPeak => 512                // NSAS_SELECT_PARAM_IRRADIANCE
    case ProfileGaussFit => 1024        // NSAS_SELECT_PARAM_GAUSS
    case Ellipticity => 2048            // NSAS_SELECT_PARAM_ELLIPTIC
    case Power => 4096                  // NSAS_SELECT_PARAM_POWER
    case PowerTotal => 8192             // NSAS_SELECT_PARAM_TOTAL_POWER
    case Divergence => 16384            // NSAS_SELECT_PARAM_DIVERGENCE
    case BeamWidthRatio13_5Clip => 32768    // NSAS_SELECT_PARAM_RATIO_WIDTH_1
    case BeamWidthRatioFwhmClip => 65536    // NSAS_SELECT_PARAM_RATIO_WIDTH_2
    case BeamWidthRatioUserClip1 => 131072  // NSAS_SELECT_PARAM_RATIO_WIDTH_USER1
    case BeamWidthRatioUserClip2 => 262144  // NSAS_SELECT_PARAM_RATIO_WIDTH_USER2
    case BeamWidthRatioD4Sigma => 524288    // NSAS_SELECT_PARAM_RATIO_WIDTH_4SIGMA
  }

  lemma Pow2Values()
    ensures Pow2(4) == 16 && Pow2(5) == 32 && Pow2(9) == 512 && Pow2(19) == 524288
  {
  }

  /** Every flag has the vendor's value, `BEAM_WIDTH_D4SIGMA` = 16 among them. */
  lemma FlagsMatchVendor(p: SelectParameter)
    ensures FlagValue(p) == VendorParameterValue(p)
    ensures p == BeamWidthD4Sigma ==> FlagValue(p) == 16
    ensures p == BeamCentroidPos ==> FlagValue(p) == 32
  {
    if Ordinal(p) < 10 {
      LowFlagsMatch(p);
    } else {
      HighFlagsMatch(p);
    }
  }

  lemma LowFlagsMatch(p: SelectParameter)
    requires Ordinal(p) < 10
    ensures FlagValue(p) == VendorParameterValue(p)
  {
    match p
    case BeamWidth13_5Clip =>
    case BeamWidthFwhmClip =>
    case BeamWidthUserClip1 =>
    case BeamWidthUserClip2 =>
    case BeamWidthD4Sigma =>
    case BeamCentroidPos =>
    case BeamPeakPos =>
    case SepCentroid =>
    case SepPeak =>
    case BeamPeak =>
  }

  lemma HighFlagsMatch(p: SelectParameter)
    requires Ordinal(p) >= 10
    ensures FlagValue(p) == VendorParameterValue(p)
  {
    assert Pow2(10) == 1024;
    match p
    case ProfileGaussFit =>
    case Ellipticity =>
    case Power =>
    case PowerTotal =>
    case Divergence =>
    case BeamWidthRatio13_5Clip => assert Pow2(15) == 32768;
    case BeamWidthRatioFwhmClip => assert Pow2(16) == 65536;
    case BeamWidthRatioUserClip1 => assert Pow2(17) == 131072;
    case BeamWidthRatioUserClip2 => assert Pow2(18) == 262144;
    case BeamWidthRatioD4Sigma => assert Pow2(19) == 524288;
  }

  lemma {:induction false} Pow2Strict(j: nat, k: nat)
    requires j < k
    ensures Pow2(j) < Pow2(k)
  {
    if j < k - 1 {
      Pow2Strict(j, k - 1);
    }
  }

  /** Distinct members are distinct flags, so a mask can hold any set of them. */
  lemma FlagsDistinct(p: SelectParameter, q: SelectParameter)
    requires p != q
    ensures FlagValue(p) != FlagValue(q)
  {
    OrdinalIndexes(p);
    OrdinalIndexes(q);
    if Ordinal(p) < Ordinal(q) {
      Pow2Strict(Ordinal(p), Ordinal(q));
    } else {
      Pow2Strict(Ordinal(q), Ordinal(p));
    }
  }

  /** A parameter mask, as the device reports it. */
  type Mask = bv32

  function Flag(p: SelectParameter): (f: Mask)
    ensures f as nat == VendorParameterValue(p)
  {
    match p
    case BeamWidth13_5Clip => 0x1
    case BeamWidthFwhmClip => 0x2
    case BeamWidthUserClip1 => 0x4
    case BeamWidthUserClip2 => 0x8
    case BeamWidthD4Sigma => 0x10
    case BeamCentroidPos => 0x20
    case BeamPeakPos => 0x40
    case SepCentroid => 0x80
    case SepPeak => 0x100
    case BeamPeak => 0x200
    case ProfileGaussFit => 0x400
    case Ellipticity => 0x800
    case Power => 0x1000
    case PowerTotal => 0x2000
    case Divergence => 0x4000
    case BeamWidthRatio13_5Clip => 0x8000
    case BeamWidthRatioFwhmClip => 0x10000
    case BeamWidthRatioUserClip1 => 0x20000
    case BeamWidthRatioUserClip2 => 0x40000
    case BeamWidthRatioD4Sigma => 0x80000
  }

  /** `mask | flag` selects the flag and keeps every flag already selected. */
  lemma SelectKeeps(mask: Mask, p: SelectParameter)
    ensures (mask | Flag(p)) & Flag(p) == Flag(p)
    ensures (mask | Flag(p)) & mask == mask
  {
  }

  /** `BeamWidthBasis`. */
  datatype BeamWidthBasis = W13_5 | W50 | WD4Sigma | WUser1 | WUser2

  /** As written: `IntEnum` with `auto()` numbers from 1. */
  function BasisValueAsWritten(b: BeamWidthBasis): nat
  {
    match b
    case W13_5 => 1
    case W50 => 2
    case WD4Sigma => 3
    case WUser1 => 4
    case WUser2 => 5
  }

  /** The vendor's `NsAsBeamWidth` numbering, which starts at 0. */
  function VendorBasisValue(b: BeamWidthBasis): nat
  {
    match b
    case W13_5 => 0     // NSAS_BWB_CLIPLEVEL_13_5
    case W50 => 1       // NSAS_BWB_CLIPLEVEL_50
    case WD4Sigma => 2  // NSAS_BWB_D4SIGMA
    case WUser1 => 3    // NSAS_BWB_CLIPLEVEL_USER1
    case WUser2 => 4    // NSAS_BWB_CLIPLEVEL_USER2
  }

  /** Every basis as written is one more than the vendor's value: D4SIGMA is 3, not 2. */
  lemma BasisOffByOne(b: BeamWidthBasis)
    ensures BasisValueAsWritten(b) == VendorBasisValue(b) + 1
    ensures BasisValueAsWritten(WD4Sigma) == 3 && VendorBasisValue(WD4Sigma) == 2
  {
  }

  /** The intended numbering, from 0 as the vendor's. */
  function BasisValue(b: BeamWidthBasis): (v: nat)
    ensures v == VendorBasisValue(b)
    ensures v < 5
  {
    BasisValueAsWritten(b) - 1
  }

  lemma BasisValuesDistinct(b: BeamWidthBasis, c: BeamWidthBasis)
    requires b != c
    ensures BasisValue(b) != BasisValue(c)
  {
  }
}
